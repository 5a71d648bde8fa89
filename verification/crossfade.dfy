/**
 * The crossfade stage: while enabled it fades the current stream out and
 * an externally supplied array of next-track samples in, linearly over
 * `durationMs`, and switches itself off once the fade has run its length.
 * While disabled it copies its input through.
 */
module Crossfade {
  import opened Optional
  import opened Pcm
  import opened ByteBuffers
  import opened Stage

  // ---------------------------------------------------------------------------
  // Fade length and weights
  // ---------------------------------------------------------------------------

  /** Kotlin's `Int` division: the quotient rounded toward zero. */
  function TruncDiv(a: int, b: int): (q: int)
    requires b > 0
    ensures 0 <= a ==> 0 <= q && q * b <= a < q * b + b
    ensures a < 0 ==> q <= 0 && q * b - b < a <= q * b
  {
    if a >= 0 then a / b else -((-a) / b)
  }

  /** A value reduced to 32-bit two's complement, as Kotlin `Int` arithmetic wraps. */
  function WrapInt32(x: int): (r: int)
    ensures -0x8000_0000 <= r < 0x8000_0000
    ensures -0x8000_0000 <= x < 0x8000_0000 ==> r == x
  {
    (x + 0x8000_0000) % 0x1_0000_0000 - 0x8000_0000
  }

  /** `durationMs * sampleRate / 1000` evaluated in `Int`, wrapping on overflow. */
  function FadeDurationAsWritten(durationMs: int, sampleRate: int): int {
    TruncDiv(WrapInt32(durationMs * sampleRate), 1000)
  }

  /** The fade length in frames, with the product computed without overflow. */
  function FadeDuration(durationMs: int, sampleRate: int): int {
    TruncDiv(durationMs * sampleRate, 1000)
  }

  /**
   * With a non-negative product the corrected length is the floor of
   * durationMs * sampleRate / 1000 frames, and it agrees with the code as
   * written whenever the product fits in an `Int`.
   */
  lemma FadeDurationMeaning(durationMs: int, sampleRate: int)
    requires 0 <= durationMs && 0 <= sampleRate
    ensures var d := FadeDuration(durationMs, sampleRate);
      0 <= d && 1000 * d <= durationMs * sampleRate < 1000 * d + 1000
    ensures durationMs * sampleRate < 0x8000_0000 ==>
      FadeDurationAsWritten(durationMs, sampleRate) == FadeDuration(durationMs, sampleRate)
  {
  }

  /**
   * A 45-second fade at 48 kHz overflows `Int`: the length as written is
   * negative, so a fade in progress weighs the current track fully and the
   * next not at all, while the corrected length is 2160000 frames.
   */
  lemma LongFadeOverflows()
    ensures FadeDurationAsWritten(45000, 48000) < 0
    ensures FadeOut(0, FadeDurationAsWritten(45000, 48000)) == 1.0
    ensures FadeIn(0, FadeDurationAsWritten(45000, 48000)) == 0.0
    ensures FadeDuration(45000, 48000) == 2160000
  {
    assert 45000 * 48000 == 2160000000;
    assert WrapInt32(2160000000) == -2134967296;
  }

  /**
   * The fade as written with a 45-second length at 48 kHz: the first block
   * it processes mixes at weights (1, 0), keeping the current track and
   * none of the next, and then switches the mixer off.
   */
  lemma LongFadeEndsAtFirstBlock(f: Fade, frames: nat, count: nat)
    requires CursorOk(f) && f.enabled && f.durationMs == 45000 && f.position >= 0
    ensures FadeOut(f.position, FadeDurationAsWritten(f.durationMs, 48000)) == 1.0
    ensures FadeIn(f.position, FadeDurationAsWritten(f.durationMs, 48000)) == 0.0
    ensures Advanced(f, 48000, frames, count) == Idle(f)
  {
    LongFadeOverflows();
    var d := FadeDurationAsWritten(45000, 48000);
    assert f.position as real / d as real <= 0.0;
  }

  /** `(position / duration).coerceIn(0, 1)`. */
  function Progress(position: int, duration: int): (p: real)
    requires duration != 0
    ensures 0.0 <= p <= 1.0
  {
    Clamp(position as real / duration as real, 0.0, 1.0)
  }

  /** `calculateFadeOut`: 1 for a zero duration, otherwise 1 - progress. */
  function FadeOut(position: int, duration: int): (w: real)
    ensures 0.0 <= w <= 1.0
    ensures duration == 0 ==> w == 1.0
  {
    if duration == 0 then 1.0 else 1.0 - Progress(position, duration)
  }

  /** `calculateFadeIn`: 0 for a zero duration, otherwise the progress. */
  function FadeIn(position: int, duration: int): (w: real)
    ensures 0.0 <= w <= 1.0
    ensures duration == 0 ==> w == 0.0
  {
    if duration == 0 then 0.0 else Progress(position, duration)
  }

  /** The two weights always sum to one. */
  lemma WeightsSumToOne(position: int, duration: int)
    ensures FadeOut(position, duration) + FadeIn(position, duration) == 1.0
  {
  }

  /**
   * Over a positive duration the fade-out weight never grows as the
   * position advances, starts at 1 and reaches 0 at the end.
   */
  lemma FadeOutFalls(p: int, q: int, duration: int)
    requires duration > 0 && p <= q
    ensures FadeOut(q, duration) <= FadeOut(p, duration)
    ensures p <= 0 ==> FadeOut(p, duration) == 1.0
    ensures duration <= q ==> FadeOut(q, duration) == 0.0
  {
    var d := duration as real;
    DivMono(p as real, q as real, d);
    if p <= 0 {
      DivMono(p as real, 0.0, d);
    }
    if duration <= q {
      DivMono(d, q as real, d);
    }
  }

  /** Dividing by a positive number keeps the order. */
  lemma DivMono(a: real, b: real, d: real)
    requires a <= b && d > 0.0
    ensures a / d <= b / d
  {
    assert b / d - a / d == (b - a) / d;
  }

  // ---------------------------------------------------------------------------
  // Mixing one block
  // ---------------------------------------------------------------------------

  function Min(a: int, b: int): int {
    if a < b then a else b
  }

  /** How many next-track samples one block of `count` floats consumes from `cursor`. */
  function Available(count: nat, next: seq<real>, cursor: int): (k: nat)
    requires 0 <= cursor <= |next|
    ensures k <= count && cursor + k <= |next|
    ensures k == count || cursor + k == |next|
  {
    Min(count, |next| - cursor)
  }

  /**
   * The mix loop: the first `Available` samples become
   * cur * fadeOut + next * fadeIn, read from the next track at the cursor;
   * the samples after them are left as they are.
   */
  function Crossfaded(cur: seq<real>, next: seq<real>, cursor: int, fadeOut: real, fadeIn: real): (r: seq<real>)
    requires 0 <= cursor <= |next|
    ensures |r| == |cur|
  {
    var k := Available(|cur|, next, cursor);
    seq(|cur|, i requires 0 <= i < |cur| => if i < k then Amplify(cur[i], fadeOut) + Amplify(next[cursor + i], fadeIn) else cur[i])
  }

  /**
   * The whole block: mixed while the next track has samples left,
   * otherwise every sample scaled by the fade-out weight alone.
   */
  function MixBlock(cur: seq<real>, next: Option<seq<real>>, cursor: int, fadeOut: real, fadeIn: real): (r: seq<real>)
    requires next.Some? ==> 0 <= cursor <= |next.value|
    ensures |r| == |cur|
  {
    if next.Some? && cursor < |next.value| then Crossfaded(cur, next.value, cursor, fadeOut, fadeIn)
    else Scale(cur, fadeOut)
  }

  predicate InUnitRange(s: seq<real>) {
    forall i :: 0 <= i < |s| ==> -1.0 <= s[i] <= 1.0
  }

  /** A weighted sum with weights in [0, 1] summing to 1 stays between -1 and 1. */
  lemma BlendInRange(a: real, b: real, wa: real, wb: real)
    requires -1.0 <= a <= 1.0 && -1.0 <= b <= 1.0
    requires 0.0 <= wa && 0.0 <= wb && wa + wb == 1.0
    ensures -1.0 <= Amplify(a, wa) + Amplify(b, wb) <= 1.0
  {
    WeightedBounds(a, wa);
    WeightedBounds(b, wb);
  }

  /** A sample in [-1, 1] times a non-negative weight stays within the weight. */
  lemma WeightedBounds(a: real, w: real)
    requires -1.0 <= a <= 1.0 && 0.0 <= w
    ensures -w <= Amplify(a, w) <= w
  {
    assert w - a * w == (1.0 - a) * w;
    assert a * w + w == (1.0 + a) * w;
  }

  /**
   * With both tracks' samples in [-1, 1] and the stage's weights, the
   * mixed block stays in [-1, 1]: a crossfade never clips.
   */
  lemma MixStaysInRange(cur: seq<real>, next: Option<seq<real>>, cursor: int, position: int, duration: int)
    requires next.Some? ==> 0 <= cursor <= |next.value| && InUnitRange(next.value)
    requires InUnitRange(cur)
    ensures InUnitRange(MixBlock(cur, next, cursor, FadeOut(position, duration), FadeIn(position, duration)))
  {
    var fo, fi := FadeOut(position, duration), FadeIn(position, duration);
    var r := MixBlock(cur, next, cursor, fo, fi);
    forall i | 0 <= i < |r|
      ensures -1.0 <= r[i] <= 1.0
    {
      if next.Some? && cursor < |next.value| {
        if i < Available(|cur|, next.value, cursor) {
          BlendInRange(cur[i], next.value[cursor + i], fo, fi);
        }
      } else {
        WeightedBounds(cur[i], fo);
      }
    }
  }

  /**
   * At the start of a fade the block is the current track unchanged; at
   * its end the mixed part is exactly the next track's samples and the
   * rest of the block is still the current track.
   */
  lemma MixEndpoints(cur: seq<real>, next: seq<real>, cursor: int)
    requires 0 <= cursor < |next|
    ensures MixBlock(cur, Some(next), cursor, 1.0, 0.0) == cur
    ensures var k := Available(|cur|, next, cursor);
      MixBlock(cur, Some(next), cursor, 0.0, 1.0) == next[cursor..cursor + k] + cur[k..]
  {
    var k := Available(|cur|, next, cursor);
    var start := MixBlock(cur, Some(next), cursor, 1.0, 0.0);
    forall i | 0 <= i < |cur|
      ensures start[i] == cur[i]
    {
      if i < k {
        assert start[i] == Amplify(cur[i], 1.0) + Amplify(next[cursor + i], 0.0);
      }
    }
    var end := MixBlock(cur, Some(next), cursor, 0.0, 1.0);
    var want := next[cursor..cursor + k] + cur[k..];
    forall i | 0 <= i < |cur|
      ensures end[i] == want[i]
    {
      if i < k {
        assert end[i] == Amplify(cur[i], 0.0) + Amplify(next[cursor + i], 1.0);
      }
    }
  }

  // ---------------------------------------------------------------------------
  // The fade state machine
  // ---------------------------------------------------------------------------

  /** The fields that make up the fade's state machine. */
  datatype Fade = Fade(enabled: bool, durationMs: int, position: int, next: Option<seq<real>>, cursor: int)

  /** The next-track cursor stays within the attached array. */
  predicate CursorOk(f: Fade) {
    0 <= f.cursor && (f.next.Some? ==> f.cursor <= |f.next.value|)
  }

  /** `isActive`: enabled with a next-track array attached. */
  function Active(f: Fade): bool {
    f.enabled && f.next.Some?
  }

  /** The state `disable()` leaves: not enabled, position and cursor 0, no next track; the duration stays. */
  function Idle(f: Fade): (r: Fade)
    ensures CursorOk(r) && !Active(r)
  {
    Fade(false, f.durationMs, 0, None, 0)
  }

  /**
   * The state after a processed block of `frames` frames and `count`
   * floats: the cursor advances by the next-track samples consumed, the
   * position by the frames, and the fade switches itself off once the
   * position reaches its length.
   */
  function Advanced(f: Fade, sampleRate: int, frames: nat, count: nat): (r: Fade)
    requires CursorOk(f)
    ensures CursorOk(r)
  {
    var cursor := if f.next.Some? && f.cursor < |f.next.value|
                  then f.cursor + Available(count, f.next.value, f.cursor) else f.cursor;
    var position := f.position + frames;
    if position >= FadeDurationAsWritten(f.durationMs, sampleRate) then Idle(f)
    else f.(position := position, cursor := cursor)
  }

  /**
   * One processed block either ends the fade or moves the position on by
   * exactly its frames, keeping the duration, the next track and the flag.
   */
  lemma AdvancedStep(f: Fade, sampleRate: int, frames: nat, count: nat)
    requires CursorOk(f) && f.enabled
    ensures var r := Advanced(f, sampleRate, frames, count);
      r.durationMs == f.durationMs &&
      (f.position + frames >= FadeDurationAsWritten(f.durationMs, sampleRate) <==> !r.enabled) &&
      (r.enabled ==> r.position == f.position + frames && r.next == f.next && f.cursor <= r.cursor) &&
      (!r.enabled ==> r == Idle(f))
  {
  }

  /** `k` processed blocks of the same size, stopping once the fade is off. */
  function Run(f: Fade, sampleRate: int, frames: nat, count: nat, k: nat): (r: Fade)
    requires CursorOk(f)
    ensures CursorOk(r)
    decreases k
  {
    if k == 0 || !f.enabled then f else Run(Advanced(f, sampleRate, frames, count), sampleRate, frames, count, k - 1)
  }

  /**
   * A fade always ends: blocks of at least one frame switch it off after
   * at most as many blocks as frames are left in it.
   */
  lemma {:induction false} FadeEnds(f: Fade, sampleRate: int, frames: nat, count: nat, k: nat)
    requires CursorOk(f) && frames >= 1
    requires k >= 1 && k >= FadeDurationAsWritten(f.durationMs, sampleRate) - f.position
    ensures !Run(f, sampleRate, frames, count, k).enabled
    decreases k
  {
    if f.enabled {
      var g := Advanced(f, sampleRate, frames, count);
      if g.enabled {
        FadeEnds(g, sampleRate, frames, count, k - 1);
      }
    }
  }

  // ---------------------------------------------------------------------------
  // getOutput's decision
  // ---------------------------------------------------------------------------

  /** What one `getOutput` call produces. */
  datatype Outcome =
    | NoOutput                                // an empty buffer; nothing changes
    | Copied(bytes: seq<byte>)                // the input's pending bytes, unchanged
    | Mixed(frames: nat, block: seq<real>)    // this block, re-encoded as shorts
    | Overrun(decoded: seq<real>)             // the decode loop ran off the scratch array, which then
                                              // holds `decoded`; the call raises ArrayIndexOutOfBoundsException

  /**
   * The decision chain of `getOutput`: while disabled, a copy once the
   * input and output buffers exist and input is pending; while enabled,
   * the buffers and remaining-bytes checks and the scratch guard on
   * frames, then whole frames decoded (overrunning the scratch array when
   * frames times channels exceed it) and mixed with the weights of the
   * current position over the fade length computed in `Int`.
   */
  function Decide(f: Fade, sampleRate: int, channelCount: int, hasInput: bool, hasOutput: bool,
                  hasScratch: bool, pending: seq<byte>, scratch: nat): Outcome
    requires CursorOk(f) && channelCount >= 1
  {
    if !f.enabled then
      if !hasInput || |pending| == 0 || !hasOutput then NoOutput else Copied(pending)
    else if !hasInput || !hasOutput || !hasScratch || |pending| == 0 then NoOutput
    else
      var frames := FrameCount(|pending|, channelCount);
      var n := Interleaved(frames, channelCount);
      if frames > scratch then NoOutput
      else if n > scratch then Overrun(DecodeShorts(pending, scratch))
      else
        var duration := FadeDurationAsWritten(f.durationMs, sampleRate);
        Mixed(frames, MixBlock(DecodeShorts(pending, n), f.next, f.cursor,
                               FadeOut(f.position, duration), FadeIn(f.position, duration)))
  }

  /** While disabled, pending input is copied through byte for byte. */
  lemma DisabledCopies(f: Fade, sampleRate: int, channelCount: int, pending: seq<byte>, scratch: nat)
    requires CursorOk(f) && channelCount >= 1 && !f.enabled && |pending| > 0
    ensures Decide(f, sampleRate, channelCount, true, true, false, pending, scratch) == Copied(pending)
    ensures Decide(f, sampleRate, channelCount, true, true, true, pending, scratch) == Copied(pending)
  {
  }

  /**
   * Enabled, `getOutput` answers empty exactly when a buffer or the input
   * bytes are missing or the frame count exceeds the scratch length.
   */
  lemma NoOutputIff(f: Fade, sampleRate: int, channelCount: int, hasInput: bool, hasOutput: bool,
                    hasScratch: bool, pending: seq<byte>, scratch: nat)
    requires CursorOk(f) && channelCount >= 1 && f.enabled
    ensures Decide(f, sampleRate, channelCount, hasInput, hasOutput, hasScratch, pending, scratch).NoOutput?
      <==> (!hasInput || !hasOutput || !hasScratch || |pending| == 0 ||
            !GuardAsWritten(|pending|, channelCount, scratch))
  {
  }

  /**
   * Enabled, the decode loop runs off the scratch array exactly when the
   * frame guard passes and the floats do not fit; that takes two or more
   * channels, and the array is then overwritten with the first shorts.
   */
  lemma OverrunIff(f: Fade, sampleRate: int, channelCount: int, hasInput: bool, hasOutput: bool,
                   hasScratch: bool, pending: seq<byte>, scratch: nat)
    requires CursorOk(f) && channelCount >= 1
    ensures Decide(f, sampleRate, channelCount, hasInput, hasOutput, hasScratch, pending, scratch).Overrun?
      <==> (f.enabled && hasInput && hasOutput && hasScratch && |pending| > 0 &&
            GuardAsWritten(|pending|, channelCount, scratch) && !GuardCorrected(|pending|, channelCount, scratch))
    ensures Decide(f, sampleRate, channelCount, hasInput, hasOutput, hasScratch, pending, scratch).Overrun? ==>
      channelCount >= 2 && 2 * (scratch + 1) <= |pending| &&
      Decide(f, sampleRate, channelCount, hasInput, hasOutput, hasScratch, pending, scratch).decoded ==
        DecodeShorts(pending, scratch)
  {
    if Decide(f, sampleRate, channelCount, hasInput, hasOutput, hasScratch, pending, scratch).Overrun? {
      OverrunWindow(|pending|, channelCount, scratch);
    }
  }

  /** Enabled with every buffer present, pending input and room for its floats, the block is mixed. */
  lemma DecideMixed(f: Fade, sampleRate: int, channelCount: int, pending: seq<byte>, scratch: nat)
    requires CursorOk(f) && channelCount >= 1 && f.enabled && |pending| > 0
    requires GuardCorrected(|pending|, channelCount, scratch)
    ensures var frames := FrameCount(|pending|, channelCount);
      var duration := FadeDurationAsWritten(f.durationMs, sampleRate);
      Decide(f, sampleRate, channelCount, true, true, true, pending, scratch) ==
      Mixed(frames, MixBlock(DecodeShorts(pending, Interleaved(frames, channelCount)), f.next, f.cursor,
                             FadeOut(f.position, duration), FadeIn(f.position, duration)))
  {
    var frames := FrameCount(|pending|, channelCount);
    assert frames <= Interleaved(frames, channelCount) by {
      assert frames * channelCount >= frames * 1;
    }
  }

  /**
   * A mixed block covers whole frames only, fits the scratch array, and
   * never clips when the next track's samples lie in [-1, 1].
   */
  lemma MixedOutput(f: Fade, sampleRate: int, channelCount: int, pending: seq<byte>, scratch: nat)
    requires CursorOk(f) && channelCount >= 1
    requires Decide(f, sampleRate, channelCount, true, true, true, pending, scratch).Mixed?
    ensures var o := Decide(f, sampleRate, channelCount, true, true, true, pending, scratch);
      f.enabled && |o.block| == o.frames * channelCount && |o.block| <= scratch &&
      2 * |o.block| <= |pending| < 2 * |o.block| + 2 * channelCount
    ensures var o := Decide(f, sampleRate, channelCount, true, true, true, pending, scratch);
      (f.next.Some? ==> InUnitRange(f.next.value)) ==> InUnitRange(o.block)
  {
    var frames := FrameCount(|pending|, channelCount);
    var n := Interleaved(frames, channelCount);
    var duration := FadeDurationAsWritten(f.durationMs, sampleRate);
    var cur := DecodeShorts(pending, n);
    var o := Decide(f, sampleRate, channelCount, true, true, true, pending, scratch);
    assert o == Mixed(frames, MixBlock(cur, f.next, f.cursor, FadeOut(f.position, duration), FadeIn(f.position, duration)));
    assert InUnitRange(cur);
    if f.next.Some? ==> InUnitRange(f.next.value) {
      MixStaysInRange(cur, f.next, f.cursor, f.position, duration);
    }
  }

  // ---------------------------------------------------------------------------
  // The loops of getOutput
  // ---------------------------------------------------------------------------

  /** The mix loop over the first `Available` samples of the scratch array. */
  method MixInto(samples: array<real>, n: nat, next: seq<real>, cursor: int, fadeOut: real, fadeIn: real)
    returns (available: nat)
    requires n <= samples.Length && 0 <= cursor < |next|
    modifies samples
    ensures available == Available(n, next, cursor)
    ensures samples[..n] == Crossfaded(old(samples[..n]), next, cursor, fadeOut, fadeIn)
    ensures samples[n..] == old(samples[n..])
  {
    ghost var s0 := samples[..n];
    available := Min(n, |next| - cursor);
    var i := 0;
    while i < available
      invariant 0 <= i <= available
      invariant forall j :: 0 <= j < i ==> samples[j] == Amplify(s0[j], fadeOut) + Amplify(next[cursor + j], fadeIn)
      invariant forall j :: i <= j < n ==> samples[j] == s0[j]
      invariant samples[n..] == old(samples[n..])
    {
      var currentSample := samples[i];
      var nextSample := next[cursor + i];
      samples[i] := Amplify(currentSample, fadeOut) + Amplify(nextSample, fadeIn);
      i := i + 1;
    }
    ghost var want := Crossfaded(s0, next, cursor, fadeOut, fadeIn);
    assert forall j :: 0 <= j < n ==> samples[..n][j] == want[j];
  }

  /** The fade-out-only loop: every one of the first `n` samples times `fadeOut`. */
  method FadeOutInto(samples: array<real>, n: nat, fadeOut: real)
    requires n <= samples.Length
    modifies samples
    ensures samples[..n] == Scale(old(samples[..n]), fadeOut)
    ensures samples[n..] == old(samples[n..])
  {
    ghost var s0 := samples[..n];
    var i := 0;
    while i < n
      invariant 0 <= i <= n
      invariant forall j :: 0 <= j < i ==> samples[j] == Amplify(s0[j], fadeOut)
      invariant forall j :: i <= j < n ==> samples[j] == s0[j]
      invariant samples[n..] == old(samples[n..])
    {
      samples[i] := Amplify(samples[i], fadeOut);
      i := i + 1;
    }
  }

  /**
   * The mixing half of an enabled `getOutput`: decode `n` shorts, then mix
   * them with the next track or fade them out, reporting how many
   * next-track samples were consumed.
   */
  method DecodeAndMix(input: ByteBuffer, samples: array<real>, n: nat, next: Option<seq<real>>, cursor: int,
                      fadeOut: real, fadeIn: real) returns (consumed: nat)
    requires input.Valid() && 2 * n <= input.Remaining() && n <= samples.Length
    requires next.Some? ==> 0 <= cursor <= |next.value|
    modifies input, samples
    ensures input.Valid() && input.limit == old(input.limit)
    ensures samples[..n] == MixBlock(DecodeShorts(old(input.Pending()), n), next, cursor, fadeOut, fadeIn)
    ensures samples[n..] == old(samples[n..])
    ensures consumed == (if next.Some? && cursor < |next.value| then Available(n, next.value, cursor) else 0)
  {
    DecodeInto(input, samples, n);
    if next.Some? && cursor < |next.value| {
      consumed := MixInto(samples, n, next.value, cursor, fadeOut, fadeIn);
    } else {
      FadeOutInto(samples, n, fadeOut);
      consumed := 0;
    }
  }

  // ---------------------------------------------------------------------------
  // The stage
  // ---------------------------------------------------------------------------

  class CrossfadeMixer {
    var enabled: bool
    var durationMs: int
    var fadePosition: int
    var sampleRate: int
    var channelCount: int
    var nextTrackBuffer: Option<seq<real>>
    var nextTrackBufferPosition: int
    var inputAudioFormat: Option<AudioFormat>
    var outputAudioFormat: Option<AudioFormat>
    var inputBuffer: ByteBuffer?
    var outputBuffer: ByteBuffer?
    var buffer: array?<real>
    ghost var Repr: set<object>

    ghost predicate Valid()
      reads this, Repr
    {
      this in Repr &&
      (inputBuffer != null ==> inputBuffer in Repr && inputBuffer.data in Repr) &&
      (outputBuffer != null ==> outputBuffer in Repr && outputBuffer.data in Repr) &&
      (buffer != null ==> buffer in Repr) &&
      BuffersOk(inputBuffer, outputBuffer, inputAudioFormat) &&
      channelCount >= 1 && CursorOk(State())
    }

    /** The fade's state machine. */
    function State(): Fade
      reads this
    {
      Fade(enabled, durationMs, fadePosition, nextTrackBuffer, nextTrackBufferPosition)
    }

    function Buffers(): (ByteBuffer?, ByteBuffer?, array?<real>)
      reads this
    {
      (inputBuffer, outputBuffer, buffer)
    }

    /** The formats and the sample rate and channel count taken from the last one configured. */
    function Formats(): (Option<AudioFormat>, Option<AudioFormat>, int, int)
      reads this
    {
      (inputAudioFormat, outputAudioFormat, sampleRate, channelCount)
    }

    ghost function PendingInput(): seq<byte>
      reads this, Repr
      requires Valid()
    {
      if inputBuffer == null then [] else inputBuffer.Pending()
    }

    /** What `getOutput` would do now. */
    ghost function Decision(): Outcome
      reads this, Repr
      requires Valid()
    {
      Decide(State(), sampleRate, channelCount, inputBuffer != null, outputBuffer != null, buffer != null,
             PendingInput(), if buffer == null then 0 else buffer.Length)
    }

    ghost predicate InputCleared()
      reads this, Repr
      requires Valid()
    {
      inputBuffer != null && inputBuffer.position == 0 && inputBuffer.limit == inputBuffer.Capacity()
    }

    /** A new stage: disabled, a 3000 ms fade, 44100 Hz stereo, nothing attached or allocated. */
    constructor ()
      ensures Valid() && fresh(Repr)
      ensures State() == Fade(false, 3000, 0, None, 0)
      ensures Formats() == (None, None, 44100, 2)
      ensures Buffers() == (null, null, null)
    {
      enabled, durationMs, fadePosition := false, 3000, 0;
      sampleRate, channelCount := 44100, 2;
      nextTrackBuffer, nextTrackBufferPosition := None, 0;
      inputAudioFormat, outputAudioFormat := None, None;
      inputBuffer, outputBuffer, buffer := null, null, null;
      Repr := {this};
    }

    /** Starts a fade of `duration` ms from position 0 and cursor 0, keeping any attached next track. */
    method Enable(duration: int)
      requires Valid()
      modifies this
      ensures Valid() && Repr == old(Repr)
      ensures State() == Fade(true, duration, 0, old(nextTrackBuffer), 0)
      ensures Formats() == old(Formats()) && Buffers() == old(Buffers())
    {
      enabled := true;
      durationMs := duration;
      fadePosition := 0;
      nextTrackBufferPosition := 0;
    }

    /** Back to idle: not enabled, position 0, next track dropped, cursor 0. */
    method Disable()
      requires Valid()
      modifies this
      ensures Valid() && Repr == old(Repr)
      ensures State() == Idle(old(State()))
      ensures Formats() == old(Formats()) && Buffers() == old(Buffers())
    {
      enabled := false;
      fadePosition := 0;
      nextTrackBuffer := None;
      nextTrackBufferPosition := 0;
    }

    /** Attaches the next track's samples and rewinds the cursor to 0. */
    method SetNextTrackBuffer(next: seq<real>)
      requires Valid()
      modifies this
      ensures Valid() && Repr == old(Repr)
      ensures State() == old(State()).(next := Some(next), cursor := 0)
      ensures Formats() == old(Formats()) && Buffers() == old(Buffers())
    {
      nextTrackBuffer := Some(next);
      nextTrackBufferPosition := 0;
    }

    method IsEnabled() returns (r: bool)
      ensures r == State().enabled
    {
      r := enabled;
    }

    method IsActive() returns (r: bool)
      ensures r == Active(State())
    {
      r := enabled && nextTrackBuffer.Some?;
    }

    /** Records the format, its rate and channel count, and allocates the buffers. */
    method Configure(format: AudioFormat) returns (outputFormat: AudioFormat)
      requires Valid() && ValidFormat(format)
      modifies this
      ensures Valid() && fresh(Repr - old(Repr))
      ensures outputFormat == format
      ensures Formats() == (Some(format), Some(format), format.sampleRate, format.channelCount)
      ensures State() == old(State())
      ensures inputBuffer != null && fresh(inputBuffer) && outputBuffer != null && fresh(outputBuffer)
      ensures buffer != null && fresh(buffer) && buffer.Length == ScratchSize(format)
      ensures inputBuffer.Capacity() == ByteCapacity(format) && InputCleared()
      ensures outputBuffer.position == 0 && outputBuffer.limit == ByteCapacity(format)
    {
      AttachBuffers(format);
      sampleRate := format.sampleRate;
      channelCount := format.channelCount;
      outputFormat := format;
    }

    /** `configure`'s format and allocation half. */
    method AttachBuffers(format: AudioFormat)
      requires Valid() && ValidFormat(format)
      modifies this
      ensures Valid() && fresh(Repr - old(Repr))
      ensures inputAudioFormat == Some(format) && outputAudioFormat == Some(format)
      ensures sampleRate == old(sampleRate) && channelCount == old(channelCount)
      ensures State() == old(State())
      ensures inputBuffer != null && fresh(inputBuffer) && outputBuffer != null && fresh(outputBuffer)
      ensures buffer != null && fresh(buffer) && buffer.Length == ScratchSize(format)
      ensures inputBuffer.Capacity() == ByteCapacity(format) && InputCleared()
      ensures outputBuffer.position == 0 && outputBuffer.limit == ByteCapacity(format)
    {
      var input, output, samples := AllocateBuffers(format);
      inputAudioFormat, outputAudioFormat := Some(format), Some(format);
      inputBuffer, outputBuffer, buffer := input, output, samples;
      Repr := Repr + {input, input.data, output, output.data, samples};
    }

    /** Appends the host's bytes when they fit; without an input buffer nothing happens. */
    method QueueInput(src: ByteBuffer)
      requires Valid() && src.Valid() && src !in Repr && src.data !in Repr
      modifies Repr, src
      ensures Valid() && Repr == old(Repr)
      ensures State() == old(State()) && Formats() == old(Formats()) && Buffers() == old(Buffers())
      ensures outputBuffer != null ==> unchanged(outputBuffer, outputBuffer.data)
      ensures buffer != null ==> unchanged(buffer)
      ensures inputBuffer == null || old(src.Remaining()) > old(inputBuffer.Remaining()) ==>
        unchanged(src) && (inputBuffer != null ==> unchanged(inputBuffer, inputBuffer.data))
      ensures inputBuffer != null && old(src.Remaining()) <= old(inputBuffer.Remaining()) ==>
        inputBuffer.position == old(inputBuffer.position) + old(src.Remaining()) &&
        inputBuffer.limit == old(inputBuffer.limit) &&
        inputBuffer.data[..] == old(inputBuffer.data[..inputBuffer.position]) + old(src.Pending())
                                + old(inputBuffer.data[inputBuffer.position + src.Remaining()..]) &&
        src.position == src.limit == old(src.limit)
    {
      if inputBuffer == null {
        return;
      }
      Enqueue(inputBuffer, src);
    }

    /**
     * The state after one `getOutput` call that answered `r`: an empty
     * answer, the copied bytes, or the mixed block re-encoded, with the
     * input cleared; a mixed block also advances the fade.
     */
    twostate predicate Answered(new r: ByteBuffer?)
      requires old(Valid())
      reads this, Repr, r
    {
      Valid() && Repr == old(Repr) && Formats() == old(Formats()) && Buffers() == old(Buffers()) &&
      (inputBuffer != null ==> unchanged(inputBuffer.data)) &&
      match old(Decision())
      case NoOutput => r != null && fresh(r) && Empty(r) && State() == old(State())
      case Overrun(decoded) =>
        r == null && inputBuffer != null && outputBuffer != null && buffer != null &&
        buffer[..] == decoded &&
        inputBuffer.position == old(inputBuffer.position) + 2 * (buffer.Length + 1) &&
        inputBuffer.limit == old(inputBuffer.limit) &&
        unchanged(outputBuffer, outputBuffer.data) && State() == old(State())
      case Copied(bytes) =>
        r == outputBuffer && r.Valid() && r.Pending() == bytes && InputCleared() && State() == old(State())
      case Mixed(frames, block) =>
        r == outputBuffer && r.Valid() && r.Pending() == EncodeShorts(block) && InputCleared() &&
        buffer != null && |block| <= buffer.Length &&
        buffer[..|block|] == block && buffer[|block|..] == old(buffer[|block|..]) &&
        State() == Advanced(old(State()), sampleRate, frames, |block|)
    }

    /**
     * `getOutput`. A null answer stands for the ArrayIndexOutOfBoundsException
     * the decode loop raises when the frame guard lets through more floats
     * than the scratch array holds.
     */
    method GetOutput() returns (r: ByteBuffer?)
      requires Valid()
      modifies Repr
      ensures Answered(r)
      ensures old(Decision()).NoOutput? ==> unchanged(Repr)
      ensures old(Decision()).Copied? && buffer != null ==> unchanged(buffer)
    {
      if !enabled {
        r := DrainDisabled();
      } else {
        r := DrainEnabled();
      }
    }

    /** Disabled: copy the pending input, checking only the two buffers. */
    method DrainDisabled() returns (r: ByteBuffer?)
      requires Valid() && !enabled
      modifies Repr
      ensures Answered(r)
      ensures old(Decision()).NoOutput? ==> unchanged(Repr)
      ensures old(Decision()).Copied? && buffer != null ==> unchanged(buffer)
    {
      if inputBuffer == null {
        r := new ByteBuffer.Allocate(0);
        return;
      }
      if !inputBuffer.HasRemaining() {
        r := new ByteBuffer.Allocate(0);
        return;
      }
      if outputBuffer == null {
        r := new ByteBuffer.Allocate(0);
        return;
      }
      PassThrough(inputBuffer, outputBuffer);
      r := outputBuffer;
    }

    /** Enabled: the buffer checks and the scratch guard on frames, then one mixed block. */
    method DrainEnabled() returns (r: ByteBuffer?)
      requires Valid() && enabled
      modifies Repr
      ensures Answered(r)
      ensures old(Decision()).NoOutput? ==> unchanged(Repr)
    {
      if inputBuffer == null || outputBuffer == null || buffer == null {
        r := new ByteBuffer.Allocate(0);
        return;
      }
      if !inputBuffer.HasRemaining() {
        r := new ByteBuffer.Allocate(0);
        return;
      }
      var sampleCount := FrameCount(inputBuffer.Remaining(), channelCount);
      if sampleCount > buffer.Length {
        r := new ByteBuffer.Allocate(0);
        return;
      }
      if Interleaved(sampleCount, channelCount) > buffer.Length {
        OverrunWindow(inputBuffer.Remaining(), channelCount, buffer.Length);
        DecodeOverrun(inputBuffer, buffer);
        r := null;
        return;
      }
      r := DrainChecked(sampleCount);
    }

    /**
     * Past every check: decode, mix or fade out, advance the fade (ending
     * it once its length is reached), then write the block back.
     */
    method DrainChecked(sampleCount: nat) returns (r: ByteBuffer?)
      requires Valid() && enabled
      requires inputBuffer != null && outputBuffer != null && buffer != null
      requires inputBuffer.Remaining() > 0
      requires sampleCount == FrameCount(inputBuffer.Remaining(), channelCount)
      requires Interleaved(sampleCount, channelCount) <= buffer.Length
      modifies Repr
      ensures Answered(r)
    {
      var input, output, samples := inputBuffer, outputBuffer, buffer;
      var n := Interleaved(sampleCount, channelCount);
      var fadeDurationSamples := FadeDurationAsWritten(durationMs, sampleRate);
      var fadeOut := FadeOut(fadePosition, fadeDurationSamples);
      var fadeIn := FadeIn(fadePosition, fadeDurationSamples);
      ghost var block := MixBlock(DecodeShorts(input.Pending(), n), nextTrackBuffer, nextTrackBufferPosition,
                                  fadeOut, fadeIn);
      DecideMixed(State(), sampleRate, channelCount, input.Pending(), samples.Length);
      assert Decision() == Mixed(sampleCount, block);
      ghost var s0 := State();
      ghost var tail := samples[n..];
      var consumed := DecodeAndMix(input, samples, n, nextTrackBuffer, nextTrackBufferPosition, fadeOut, fadeIn);
      AdvanceFade(sampleCount, n, consumed);
      assert State() == Advanced(s0, sampleRate, sampleCount, |block|);
      WriteBack(samples, n, input, output);
      assert samples[..|block|] == block && samples[|block|..] == tail;
      assert output.Pending() == EncodeShorts(block) && InputCleared();
      r := output;
    }

    /** Moves the cursor and the position on after a block, disabling the fade once it is complete. */
    method AdvanceFade(frames: nat, count: nat, consumed: nat)
      requires Valid()
      requires consumed == if nextTrackBuffer.Some? && nextTrackBufferPosition < |nextTrackBuffer.value|
                           then Available(count, nextTrackBuffer.value, nextTrackBufferPosition) else 0
      modifies this
      ensures Valid() && Repr == old(Repr) && Formats() == old(Formats()) && Buffers() == old(Buffers())
      ensures State() == Advanced(old(State()), sampleRate, frames, count)
    {
      nextTrackBufferPosition := nextTrackBufferPosition + consumed;
      fadePosition := fadePosition + frames;
      if fadePosition >= FadeDurationAsWritten(durationMs, sampleRate) {
        Disable();
      }
    }

    /** Clears both buffers and rewinds the fade position and the cursor; the flag and next track stay. */
    method Flush()
      requires Valid()
      modifies Repr
      ensures Valid() && Repr == old(Repr)
      ensures State() == old(State()).(position := 0, cursor := 0)
      ensures sampleRate == old(sampleRate) && channelCount == old(channelCount)
      ensures Formats() == old(Formats()) && Buffers() == old(Buffers())
      ensures inputBuffer != null ==> inputBuffer.position == 0 && inputBuffer.limit == inputBuffer.Capacity()
      ensures outputBuffer != null ==> outputBuffer.position == 0 && outputBuffer.limit == outputBuffer.Capacity()
      ensures inputBuffer != null ==> unchanged(inputBuffer.data)
      ensures outputBuffer != null ==> unchanged(outputBuffer.data)
      ensures buffer != null ==> unchanged(buffer)
    {
      if inputBuffer != null {
        inputBuffer.Clear();
      }
      if outputBuffer != null {
        outputBuffer.Clear();
      }
      fadePosition := 0;
      nextTrackBufferPosition := 0;
    }

    /** Flush, then the idle state `disable()` leaves, and the format forgotten. */
    method Reset()
      requires Valid()
      modifies Repr
      ensures Valid() && Repr == old(Repr)
      ensures State() == Idle(old(State()))
      ensures inputAudioFormat == None && outputAudioFormat == None
      ensures sampleRate == old(sampleRate) && channelCount == old(channelCount)
      ensures Buffers() == old(Buffers())
      ensures inputBuffer != null ==> inputBuffer.position == 0 && inputBuffer.limit == inputBuffer.Capacity()
      ensures outputBuffer != null ==> outputBuffer.position == 0 && outputBuffer.limit == outputBuffer.Capacity()
      ensures inputBuffer != null ==> unchanged(inputBuffer.data)
      ensures outputBuffer != null ==> unchanged(outputBuffer.data)
      ensures buffer != null ==> unchanged(buffer)
    {
      Flush();
      nextTrackBuffer := None;
      enabled := false;
      inputAudioFormat := None;
      outputAudioFormat := None;
    }
  }
}
