/**
 * What the three processing stages share: appending queued bytes, the
 * frame count taken from the input's remaining bytes, and the guard that
 * keeps the decode loop inside the float scratch array.
 */
module Stage {
  import opened Optional
  import opened Pcm
  import opened ByteBuffers

  /**
   * `queueInput`: the incoming bytes are appended only when they all fit
   * in the input buffer's remaining space; otherwise nothing changes.
   */
  method Enqueue(input: ByteBuffer, src: ByteBuffer)
    requires input.Valid() && src.Valid() && src != input && src.data != input.data
    modifies input, input.data, src
    ensures input.Valid() && src.Valid()
    ensures old(src.Remaining()) <= old(input.Remaining()) ==>
      input.position == old(input.position) + old(src.Remaining()) &&
      input.limit == old(input.limit) &&
      input.data[..] == old(input.data[..input.position]) + old(src.Pending())
                        + old(input.data[input.position + src.Remaining()..]) &&
      src.position == src.limit == old(src.limit)
    ensures old(src.Remaining()) > old(input.Remaining()) ==> unchanged(input, input.data, src)
  {
    if input.Remaining() < src.Remaining() {
      return;
    }
    input.Put(src);
  }

  /**
   * The copy path: clear the output, put the input's pending bytes into it,
   * clear the input and flip the output, which then holds exactly those bytes.
   */
  method PassThrough(input: ByteBuffer, output: ByteBuffer)
    requires input.Valid() && output.Valid() && input != output && input.data != output.data
    requires input.Capacity() == output.Capacity()
    modifies input, output, output.data
    ensures input.Valid() && output.Valid()
    ensures output.Pending() == old(input.Pending())
    ensures output.data[..] == old(input.Pending()) + old(output.data[input.Remaining()..])
    ensures input.position == 0 && input.limit == input.Capacity()
  {
    output.Clear();
    output.Put(input);
    input.Clear();
    output.Flip();
    assert output.Pending() == output.data[..output.limit];
  }

  /**
   * The write-back path: clear the output, encode the first `count` samples
   * into it, clear the input and flip the output, which then holds exactly
   * the encoded shorts.
   */
  method WriteBack(samples: array<real>, count: nat, input: ByteBuffer, output: ByteBuffer)
    requires input.Valid() && output.Valid() && input != output && input.data != output.data
    requires count <= samples.Length && 2 * count <= output.Capacity()
    modifies input, output, output.data
    ensures input.Valid() && output.Valid()
    ensures output.Pending() == EncodeShorts(samples[..count])
    ensures output.data[..] == EncodeShorts(samples[..count]) + old(output.data[2 * count..])
    ensures input.position == 0 && input.limit == input.Capacity()
  {
    output.Clear();
    EncodeFrom(samples, count, output);
    input.Clear();
    output.Flip();
    assert output.Pending() == output.data[..2 * count];
  }

  /**
   * `configure`'s allocation: two zeroed byte buffers of 8 * rate * channels
   * bytes and a scratch array of 2 * rate * channels zeroed floats.
   */
  method AllocateBuffers(format: AudioFormat) returns (input: ByteBuffer, output: ByteBuffer, scratch: array<real>)
    requires ValidFormat(format)
    ensures fresh(input) && fresh(input.data) && fresh(output) && fresh(output.data) && fresh(scratch)
    ensures input != output && input.data != output.data
    ensures input.Valid() && input.Capacity() == ByteCapacity(format)
    ensures input.position == 0 && input.limit == ByteCapacity(format)
    ensures output.Valid() && output.Capacity() == ByteCapacity(format)
    ensures output.position == 0 && output.limit == ByteCapacity(format)
    ensures scratch.Length == ScratchSize(format)
  {
    var bufferSize := format.sampleRate * format.channelCount * 2;
    input := new ByteBuffer.Allocate(bufferSize * 4);
    output := new ByteBuffer.Allocate(bufferSize * 4);
    scratch := new real[bufferSize](_ => 0.0);
  }

  /** Both byte buffers well formed, distinct and equally large; the format valid. */
  ghost predicate BuffersOk(input: ByteBuffer?, output: ByteBuffer?, format: Option<AudioFormat>)
    reads input, output
  {
    (input != null ==> input.Valid()) &&
    (output != null ==> output.Valid()) &&
    (input != null && output != null ==>
      input != output && input.data != output.data && input.Capacity() == output.Capacity()) &&
    (format.Some? ==> ValidFormat(format.value))
  }

  /** Euclidean division by a positive divisor brackets the dividend. */
  lemma DivBounds(r: nat, d: int)
    requires d > 0
    ensures 0 <= r / d && (r / d) * d <= r < (r / d) * d + d
  {
    var q, m := r / d, r % d;
    assert r == d * q + m && 0 <= m < d;
  }

  /** The number of interleaved samples in `frames` frames. */
  function Interleaved(frames: nat, channelCount: int): nat
    requires channelCount >= 1
  {
    frames * channelCount
  }

  /**
   * `remaining / (2 * channelCount)`: whole frames of 16-bit samples. The
   * decode loop reads `frames * channels` shorts, never more than remain,
   * and leaves fewer than one frame's bytes unread.
   */
  function FrameCount(remaining: nat, channelCount: int): (frames: nat)
    requires channelCount >= 1
    ensures 2 * Interleaved(frames, channelCount) <= remaining
    ensures remaining - 2 * Interleaved(frames, channelCount) < 2 * channelCount
  {
    var d := 2 * channelCount;
    DivBounds(remaining, d);
    var q := remaining / d;
    assert 2 * (q * channelCount) == q * d;
    q
  }

  /** The guard as written: reject when the frame count exceeds the scratch length. */
  predicate GuardAsWritten(remaining: nat, channelCount: int, scratch: nat)
    requires channelCount >= 1
  {
    !(FrameCount(remaining, channelCount) > scratch)
  }

  /** The guard the decode loop needs: every float it writes lies inside the scratch array. */
  predicate GuardCorrected(remaining: nat, channelCount: int, scratch: nat)
    requires channelCount >= 1
  {
    Interleaved(FrameCount(remaining, channelCount), channelCount) <= scratch
  }

  /**
   * In stereo the guard as written admits a full input buffer, whose decode
   * loop would write 8 * sampleRate floats into a scratch array of
   * 4 * sampleRate.
   */
  lemma AsWrittenGuardOverrunsStereo(sampleRate: int)
    requires sampleRate >= 1
    ensures GuardAsWritten(ByteCapacity(AudioFormat(sampleRate, 2)), 2, ScratchSize(AudioFormat(sampleRate, 2)))
    ensures FrameCount(ByteCapacity(AudioFormat(sampleRate, 2)), 2) * 2 > ScratchSize(AudioFormat(sampleRate, 2))
  {
    var f := AudioFormat(sampleRate, 2);
    assert ByteCapacity(f) == 16 * sampleRate && ScratchSize(f) == 4 * sampleRate;
    assert FrameCount(16 * sampleRate, 2) == 4 * sampleRate;
  }

  /** With one channel frames and floats coincide, so the two guards agree. */
  lemma GuardsAgreeOnMono(remaining: nat, scratch: nat)
    ensures GuardAsWritten(remaining, 1, scratch) <==> GuardCorrected(remaining, 1, scratch)
  {
  }

  /**
   * Where the guard as written passes and the corrected one fails, there
   * are at least two channels and the input holds more shorts than the
   * scratch array has room for: the decode loop fills the array and reads
   * one short more before its store goes out of bounds.
   */
  lemma OverrunWindow(remaining: nat, channelCount: int, scratch: nat)
    requires channelCount >= 1
    requires GuardAsWritten(remaining, channelCount, scratch) && !GuardCorrected(remaining, channelCount, scratch)
    ensures channelCount >= 2
    ensures 2 * (scratch + 1) <= remaining
  {
    if channelCount == 1 {
      GuardsAgreeOnMono(remaining, scratch);
    }
  }

  /**
   * The decode loop run past the end of the scratch array:
   * `samples[i] = input.getShort() / 32768` fills every slot, then reads
   * the next short, whose store raises ArrayIndexOutOfBoundsException.
   * The call ends there, with the input advanced past the short it read.
   */
  method DecodeOverrun(input: ByteBuffer, samples: array<real>)
    requires input.Valid() && 2 * (samples.Length + 1) <= input.Remaining()
    modifies input, samples
    ensures input.Valid() && input.position == old(input.position) + 2 * (samples.Length + 1)
    ensures input.limit == old(input.limit)
    ensures samples[..] == DecodeShorts(old(input.Pending()), samples.Length)
  {
    DecodeInto(input, samples, samples.Length);
    var lost := input.GetShort();
  }

  function Zeros(n: nat): (z: seq<byte>)
    ensures |z| == n && forall i :: 0 <= i < n ==> z[i] == 0
  {
    seq(n, _ => 0)
  }

  /** A new buffer holding exactly `bytes` between position 0 and its limit. */
  method Wrap(bytes: seq<byte>) returns (b: ByteBuffer)
    ensures fresh(b) && fresh(b.data) && b.Valid() && b.Pending() == bytes
  {
    b := new ByteBuffer.Allocate(|bytes|);
    forall i | 0 <= i < |bytes| {
      b.data[i] := bytes[i];
    }
    assert b.Pending() == b.data[..];
  }

  /**
   * The stages' drain as written: after `configure` and one `queueInput`,
   * `getOutput` reads from the position `put` left behind to the limit,
   * so it sees the untouched zero bytes after the queued ones and never
   * the queued ones themselves.
   */
  method QueueThenReadAsWritten(f: AudioFormat, queued: seq<byte>) returns (seen: seq<byte>)
    requires ValidFormat(f) && |queued| <= ByteCapacity(f)
    ensures seen == Zeros(ByteCapacity(f) - |queued|)
  {
    var input := new ByteBuffer.Allocate(ByteCapacity(f));
    var src := Wrap(queued);
    Enqueue(input, src);
    seen := input.data[input.position..input.limit];
    assert forall i :: 0 <= i < |seen| ==> seen[i] == input.data[|queued| + i];
  }

  /** The drain the stages evidently intend: flipping first makes the queued bytes readable. */
  method QueueThenReadFlipped(f: AudioFormat, queued: seq<byte>) returns (seen: seq<byte>)
    requires ValidFormat(f) && |queued| <= ByteCapacity(f)
    ensures seen == queued
  {
    var input := new ByteBuffer.Allocate(ByteCapacity(f));
    var src := Wrap(queued);
    Enqueue(input, src);
    input.Flip();
    seen := input.data[input.position..input.limit];
  }
}
