/**
 * The parametric equaliser stage: one biquad per band, the design chosen
 * from the band's centre frequency, the filters run one after another over
 * the scratch array, then the preamp, the optional peak limiter and the
 * re-encoding to shorts.
 *
 * `trig(frequency, gain, rate)` stands for the host's cos w, sin w, A and
 * sqrt A of one band, and `pow10(x)` for `10.0.pow(x)`.
 */
module Equalizer {
  import opened Optional
  import opened Pcm
  import opened ByteBuffers
  import opened Stage
  import opened Biquad

  /** One band: centre frequency in Hz, gain in dB, quality factor. */
  datatype EQBand = EQBand(frequency: real, gain: real, q: real)

  /** The design `updateFilters` picks for a band's frequency. */
  function BandShape(frequency: real): Shape {
    if frequency < 100.0 then LowShelfShape
    else if frequency > 10000.0 then HighShelfShape
    else PeakShape
  }

  /** Below 100 Hz a low shelf, above 10 kHz a high shelf, a peak in between, both ends included. */
  lemma BandShapeRanges(frequency: real)
    ensures BandShape(frequency) == LowShelfShape <==> frequency < 100.0
    ensures BandShape(frequency) == HighShelfShape <==> frequency > 10000.0
    ensures BandShape(frequency) == PeakShape <==> 100.0 <= frequency <= 10000.0
  {
  }

  /** The rate the filters are designed for: the configured one, or 44100 Hz before `configure`. */
  function DesignRate(format: Option<AudioFormat>): real {
    if format.Some? then format.value.sampleRate as real else 44100.0
  }

  predicate BandDesignable(b: EQBand, rate: real, trig: (real, real, real) -> Trig) {
    Designable(BandShape(b.frequency), b.q, trig(b.frequency, b.gain, rate))
  }

  /** Every band can be designed at `rate` without dividing by zero. */
  predicate BandsDesignable(bands: seq<EQBand>, rate: real, trig: (real, real, real) -> Trig) {
    forall i :: 0 <= i < |bands| ==> BandDesignable(bands[i], rate, trig)
  }

  /** The coefficients the filter of band `b` stores. */
  function BandDesign(b: EQBand, rate: real, trig: (real, real, real) -> Trig): Coeffs
    requires BandDesignable(b, rate, trig)
  {
    Design(BandShape(b.frequency), b.q, trig(b.frequency, b.gain, rate))
  }

  /** The coefficients of every band, in band order. */
  function BandDesigns(bands: seq<EQBand>, rate: real, trig: (real, real, real) -> Trig): (r: seq<Coeffs>)
    requires BandsDesignable(bands, rate, trig)
    ensures |r| == |bands|
  {
    seq(|bands|, i requires 0 <= i < |bands| => BandDesign(bands[i], rate, trig))
  }

  /** `n` freshly reset histories. */
  function Silences(n: nat): (r: seq<History>)
    ensures |r| == n
  {
    seq(n, _ => Silence)
  }

  // ---------------------------------------------------------------------------
  // The filter list
  // ---------------------------------------------------------------------------

  /** The stored coefficients of each filter, in list order. */
  function CoeffsOf(fs: seq<BiquadFilter>): (r: seq<Coeffs>)
    reads fs
    ensures |r| == |fs| && forall i :: 0 <= i < |fs| ==> r[i] == fs[i].Coefficients()
  {
    if fs == [] then [] else CoeffsOf(fs[..|fs| - 1]) + [fs[|fs| - 1].Coefficients()]
  }

  /** The history of each filter, in list order. */
  function HistoriesOf(fs: seq<BiquadFilter>): (r: seq<History>)
    reads fs
    ensures |r| == |fs| && forall i :: 0 <= i < |fs| ==> r[i] == fs[i].Hist()
  {
    if fs == [] then [] else HistoriesOf(fs[..|fs| - 1]) + [fs[|fs| - 1].Hist()]
  }

  predicate Distinct(fs: seq<BiquadFilter>) {
    forall i, j :: 0 <= i < j < |fs| ==> fs[i] != fs[j]
  }

  /** The filters one after another: filter i filters what filter i - 1 wrote. */
  function Cascade(cs: seq<Coeffs>, hs: seq<History>, s: seq<real>): (r: seq<real>)
    requires |cs| == |hs|
    ensures |r| == |s|
    decreases |cs|
  {
    if cs == [] then s
    else Filtered(cs[|cs| - 1], hs[|cs| - 1], Cascade(cs[..|cs| - 1], hs[..|cs| - 1], s))
  }

  lemma CascadeSnoc(cs: seq<Coeffs>, hs: seq<History>, s: seq<real>, i: nat)
    requires |cs| == |hs| && i < |cs|
    ensures Cascade(cs[..i + 1], hs[..i + 1], s) == Filtered(cs[i], hs[i], Cascade(cs[..i], hs[..i], s))
  {
    assert cs[..i + 1][..i] == cs[..i] && hs[..i + 1][..i] == hs[..i];
  }

  /** Each filter's history after the cascade: it has seen what its predecessors wrote. */
  function CascadeHistories(cs: seq<Coeffs>, hs: seq<History>, s: seq<real>): (r: seq<History>)
    requires |cs| == |hs|
    ensures |r| == |cs|
  {
    seq(|cs|, j requires 0 <= j < |cs| => HistoryAfter(cs[j], hs[j], Cascade(cs[..j], hs[..j], s)))
  }

  /** Each filter's history after filtering its own copy of `s`. */
  function MonoHistories(cs: seq<Coeffs>, hs: seq<History>, s: seq<real>): (r: seq<History>)
    requires |cs| == |hs|
    ensures |r| == |cs|
  {
    seq(|cs|, j requires 0 <= j < |cs| => HistoryAfter(cs[j], hs[j], s))
  }

  /** A history from which a transparent filter reproduces its input. */
  predicate Balanced(h: History) {
    h.x1 == h.y1 && h.x2 == h.y2
  }

  /** Transparent filters from balanced histories leave the samples as they are. */
  lemma {:induction false} TransparentCascade(cs: seq<Coeffs>, hs: seq<History>, s: seq<real>)
    requires |cs| == |hs|
    requires forall i :: 0 <= i < |cs| ==> Transparent(cs[i]) && Balanced(hs[i])
    ensures Cascade(cs, hs, s) == s
    decreases |cs|
  {
    if cs != [] {
      var k := |cs| - 1;
      TransparentCascade(cs[..k], hs[..k], s);
      TransparentFilter(cs[k], hs[k], s);
    }
  }

  /**
   * Bands at 0 dB (A = 1 for every band), freshly designed, leave the
   * samples unchanged: the equaliser is then the preamp and the limiter.
   */
  lemma UnityGainBandsAreTransparent(bands: seq<EQBand>, rate: real, trig: (real, real, real) -> Trig,
                                     s: seq<real>)
    requires BandsDesignable(bands, rate, trig)
    requires forall i :: 0 <= i < |bands| ==> trig(bands[i].frequency, bands[i].gain, rate).a == 1.0
    ensures Cascade(BandDesigns(bands, rate, trig), Silences(|bands|), s) == s
  {
    var cs := BandDesigns(bands, rate, trig);
    forall i | 0 <= i < |bands|
      ensures Transparent(cs[i])
    {
      var b := bands[i];
      UnityGainDesignsAreTransparent(BandShape(b.frequency), b.q, trig(b.frequency, b.gain, rate));
    }
    TransparentCascade(cs, Silences(|bands|), s);
  }

  // ---------------------------------------------------------------------------
  // What `getOutput` computes
  // ---------------------------------------------------------------------------

  /** The preamp as a linear gain, then the limiter when it is on. */
  function Finish(s: seq<real>, gain: real, limiterEnabled: bool): (r: seq<real>)
    ensures |r| == |s|
  {
    if limiterEnabled then Limited(Scale(s, gain)) else Scale(s, gain)
  }

  /**
   * The scratch array after one block over `decoded`: the filters (only in
   * place with more than one channel), then preamp and limiter on the first
   * `n` samples.
   */
  function BlockScratch(decoded: seq<real>, n: nat, channelCount: int, cs: seq<Coeffs>, hs: seq<History>,
                        gain: real, limiterEnabled: bool): (r: seq<real>)
    requires n <= |decoded| && |cs| == |hs|
    ensures |r| == |decoded|
  {
    var filtered := if channelCount == 1 then decoded else Cascade(cs, hs, decoded);
    Finish(filtered[..n], gain, limiterEnabled) + filtered[n..]
  }

  /** The filter histories after one block over `decoded`. */
  function BlockHistories(decoded: seq<real>, n: nat, channelCount: int, cs: seq<Coeffs>, hs: seq<History>): (r: seq<History>)
    requires n <= |decoded| && |cs| == |hs|
    ensures |r| == |cs|
  {
    if channelCount == 1 then MonoHistories(cs, hs, decoded[..n]) else CascadeHistories(cs, hs, decoded)
  }

  /** Whether one `getOutput` call processes a block, and over which floats. */
  datatype Outcome =
    | NoOutput  // an empty buffer; nothing changes
    | Processed(count: nat, decoded: seq<real>)
      // `count` shorts decoded into the front of the scratch array, which
      // then holds `decoded`
    | Overrun(decoded: seq<real>)
      // the decode loop ran off the end of the scratch array, which then
      // holds `decoded`; the call raises ArrayIndexOutOfBoundsException

  /**
   * The decision chain of `getOutput`: the buffers, remaining bytes and
   * format checks and the scratch guard on frames; past them, whole frames
   * of shorts are decoded over the front of the scratch array, or, when
   * frames times channels exceed its length, the decode loop overruns it.
   */
  function Decide(hasInput: bool, hasOutput: bool, hasScratch: bool, pending: seq<byte>,
                  format: Option<AudioFormat>, scratch: seq<real>): Outcome
    requires format.Some? ==> ValidFormat(format.value)
  {
    if !hasInput || !hasOutput || !hasScratch || |pending| == 0 || format.None? then NoOutput
    else
      var ch := format.value.channelCount;
      var frames := FrameCount(|pending|, ch);
      var n := Interleaved(frames, ch);
      if frames > |scratch| then NoOutput
      else if n > |scratch| then Overrun(DecodeShorts(pending, |scratch|))
      else Processed(n, DecodeShorts(pending, n) + scratch[n..])
  }

  /** `getOutput` answers empty exactly when a buffer, the input or the format is missing, or the frame guard fails. */
  lemma NoOutputIff(hasInput: bool, hasOutput: bool, hasScratch: bool, pending: seq<byte>,
                    format: Option<AudioFormat>, scratch: seq<real>)
    requires format.Some? ==> ValidFormat(format.value)
    ensures Decide(hasInput, hasOutput, hasScratch, pending, format, scratch).NoOutput?
      <==> (!hasInput || !hasOutput || !hasScratch || |pending| == 0 || format.None? ||
            !GuardAsWritten(|pending|, format.value.channelCount, |scratch|))
  {
  }

  /**
   * `getOutput` throws exactly when everything is present and the frame
   * guard passes but frames times channels exceed the scratch length; that
   * needs two channels or more, and the array then holds the first shorts
   * decoded.
   */
  lemma OverrunIff(hasInput: bool, hasOutput: bool, hasScratch: bool, pending: seq<byte>,
                   format: Option<AudioFormat>, scratch: seq<real>)
    requires format.Some? ==> ValidFormat(format.value)
    ensures Decide(hasInput, hasOutput, hasScratch, pending, format, scratch).Overrun?
      <==> (hasInput && hasOutput && hasScratch && |pending| > 0 && format.Some? &&
            GuardAsWritten(|pending|, format.value.channelCount, |scratch|) &&
            !GuardCorrected(|pending|, format.value.channelCount, |scratch|))
    ensures Decide(hasInput, hasOutput, hasScratch, pending, format, scratch).Overrun? ==>
      format.value.channelCount >= 2 && 2 * (|scratch| + 1) <= |pending| &&
      Decide(hasInput, hasOutput, hasScratch, pending, format, scratch).decoded == DecodeShorts(pending, |scratch|)
  {
    if Decide(hasInput, hasOutput, hasScratch, pending, format, scratch).Overrun? {
      OverrunWindow(|pending|, format.value.channelCount, |scratch|);
    }
  }

  /** The decision with the guard on floats, as the decode loop needs it. */
  function DecideCorrected(hasInput: bool, hasOutput: bool, hasScratch: bool, pending: seq<byte>,
                           format: Option<AudioFormat>, scratch: seq<real>): Outcome
    requires format.Some? ==> ValidFormat(format.value)
  {
    if !hasInput || !hasOutput || !hasScratch || |pending| == 0 || format.None? then NoOutput
    else
      var ch := format.value.channelCount;
      var n := Interleaved(FrameCount(|pending|, ch), ch);
      if n > |scratch| then NoOutput
      else Processed(n, DecodeShorts(pending, n) + scratch[n..])
  }

  /**
   * With the guard on floats the call never overruns: it answers empty
   * exactly when a buffer, the input, the format or scratch room is missing.
   */
  lemma CorrectedNoOutputIff(hasInput: bool, hasOutput: bool, hasScratch: bool, pending: seq<byte>,
                             format: Option<AudioFormat>, scratch: seq<real>)
    requires format.Some? ==> ValidFormat(format.value)
    ensures !DecideCorrected(hasInput, hasOutput, hasScratch, pending, format, scratch).Overrun?
    ensures DecideCorrected(hasInput, hasOutput, hasScratch, pending, format, scratch).NoOutput?
      <==> (!hasInput || !hasOutput || !hasScratch || |pending| == 0 || format.None? ||
            !GuardCorrected(|pending|, format.value.channelCount, |scratch|))
    ensures DecideCorrected(hasInput, hasOutput, hasScratch, pending, format, scratch).Processed? ==>
      DecideCorrected(hasInput, hasOutput, hasScratch, pending, format, scratch).count <= |scratch|
  {
  }

  /**
   * The two decisions differ only where the code as written overruns the
   * scratch array; the corrected one answers empty there.
   */
  lemma CorrectedAgreesUnlessOverrun(hasInput: bool, hasOutput: bool, hasScratch: bool, pending: seq<byte>,
                                     format: Option<AudioFormat>, scratch: seq<real>)
    requires format.Some? ==> ValidFormat(format.value)
    ensures !Decide(hasInput, hasOutput, hasScratch, pending, format, scratch).Overrun? ==>
      Decide(hasInput, hasOutput, hasScratch, pending, format, scratch) ==
      DecideCorrected(hasInput, hasOutput, hasScratch, pending, format, scratch)
    ensures Decide(hasInput, hasOutput, hasScratch, pending, format, scratch).Overrun? ==>
      DecideCorrected(hasInput, hasOutput, hasScratch, pending, format, scratch).NoOutput?
  {
    if hasInput && hasOutput && hasScratch && |pending| > 0 && format.Some? {
      var ch := format.value.channelCount;
      var frames := FrameCount(|pending|, ch);
      assert frames <= Interleaved(frames, ch);
    }
  }

  /**
   * A processed call decodes whole frames only, leaving less than one
   * frame's bytes behind, and overwrites just the front of the scratch array.
   */
  lemma ProcessedBlock(pending: seq<byte>, format: Option<AudioFormat>, scratch: seq<real>)
    requires format.Some? ==> ValidFormat(format.value)
    requires Decide(true, true, true, pending, format, scratch).Processed?
    ensures var o := Decide(true, true, true, pending, format, scratch);
      format.Some? && o.count == Interleaved(FrameCount(|pending|, format.value.channelCount), format.value.channelCount) &&
      2 * o.count <= |pending| < 2 * o.count + 2 * format.value.channelCount &&
      |o.decoded| == |scratch| &&
      o.decoded[..o.count] == DecodeShorts(pending, o.count) && o.decoded[o.count..] == scratch[o.count..]
  {
    var ch := format.value.channelCount;
    var n := Interleaved(FrameCount(|pending|, ch), ch);
    var d := DecodeShorts(pending, n) + scratch[n..];
    assert d[..n] == DecodeShorts(pending, n);
    assert d[n..] == scratch[n..];
  }

  /** With the limiter on, a block writes shorts within +-31128. */
  lemma LimitedBlockBounded(decoded: seq<real>, n: nat, channelCount: int, cs: seq<Coeffs>, hs: seq<History>,
                            gain: real)
    requires n <= |decoded| && |cs| == |hs|
    ensures forall i :: 0 <= i < n ==>
      -31128 <= ToShort(BlockScratch(decoded, n, channelCount, cs, hs, gain, true)[i]) <= 31128
  {
    var filtered := if channelCount == 1 then decoded else Cascade(cs, hs, decoded);
    var t := Scale(filtered[..n], gain);
    LimitedShortsBounded(t);
    assert BlockScratch(decoded, n, channelCount, cs, hs, gain, true)[..n] == Limited(t);
  }

  /**
   * With one channel the filters change only their own histories: the
   * block writes what it would write with no bands at all.
   */
  lemma MonoOutputIgnoresFilters(decoded: seq<real>, n: nat, cs: seq<Coeffs>, hs: seq<History>,
                                 gain: real, limiterEnabled: bool)
    requires n <= |decoded| && |cs| == |hs|
    ensures BlockScratch(decoded, n, 1, cs, hs, gain, limiterEnabled) ==
            BlockScratch(decoded, n, 1, [], [], gain, limiterEnabled)
    ensures BlockScratch(decoded, n, 1, cs, hs, gain, limiterEnabled) ==
            Finish(decoded[..n], gain, limiterEnabled) + decoded[n..]
  {
  }

  /**
   * Transparent filters from balanced histories (0 dB bands after a reset)
   * leave the block as it would be with no bands, for any channel count.
   */
  lemma TransparentBandsOnlyApplyPreamp(decoded: seq<real>, n: nat, channelCount: int,
                                        cs: seq<Coeffs>, hs: seq<History>, gain: real, limiterEnabled: bool)
    requires n <= |decoded| && |cs| == |hs|
    requires forall i :: 0 <= i < |cs| ==> Transparent(cs[i]) && Balanced(hs[i])
    ensures BlockScratch(decoded, n, channelCount, cs, hs, gain, limiterEnabled) ==
            BlockScratch(decoded, n, channelCount, [], [], gain, limiterEnabled)
    ensures BlockScratch(decoded, n, channelCount, cs, hs, gain, limiterEnabled) ==
            Finish(decoded[..n], gain, limiterEnabled) + decoded[n..]
  {
    TransparentCascade(cs, hs, decoded);
    assert Cascade([], [], decoded) == decoded;
  }

  /**
   * With more than one channel each filter runs over the whole scratch
   * array, past the decoded block: the history a band keeps for the next
   * block ends with the last float of the array, left over from an
   * earlier, longer block, not with the last decoded sample.
   */
  lemma StaleTailEntersHistory(decoded: seq<real>, n: nat, channelCount: int, c: Coeffs, h: History)
    requires n < |decoded| && channelCount >= 2
    ensures BlockHistories(decoded, n, channelCount, [c], [h])[0].x1 == decoded[|decoded| - 1]
  {
    var p, x := decoded[..|decoded| - 1], decoded[|decoded| - 1];
    assert [c][..0] == [] && [h][..0] == [];
    assert Cascade([], [], decoded) == decoded;
    FilteredSnoc(c, h, p, x);
    assert p + [x] == decoded;
  }

  // ---------------------------------------------------------------------------
  // The block the filters evidently intend
  // ---------------------------------------------------------------------------

  /**
   * Every channel count filters the decoded samples in place, one band
   * after the other, and nothing past them; then the preamp and limiter.
   */
  function IntendedBlock(decoded: seq<real>, n: nat, cs: seq<Coeffs>, hs: seq<History>,
                         gain: real, limiterEnabled: bool): (r: seq<real>)
    requires n <= |decoded| && |cs| == |hs|
    ensures |r| == |decoded| && r[n..] == decoded[n..]
  {
    Finish(Cascade(cs, hs, decoded[..n]), gain, limiterEnabled) + decoded[n..]
  }

  /** The histories the intended block leaves: each band has seen the decoded samples only. */
  function IntendedHistories(decoded: seq<real>, n: nat, cs: seq<Coeffs>, hs: seq<History>): (r: seq<History>)
    requires n <= |decoded| && |cs| == |hs|
    ensures |r| == |cs|
  {
    CascadeHistories(cs, hs, decoded[..n])
  }

  /** The first `k` histories of a cascade are those of its first `k` bands. */
  lemma CascadeHistoriesPrefix(cs: seq<Coeffs>, hs: seq<History>, s: seq<real>, k: nat)
    requires |cs| == |hs| && k <= |cs|
    ensures CascadeHistories(cs, hs, s)[..k] == CascadeHistories(cs[..k], hs[..k], s)
  {
    forall j | 0 <= j < k
      ensures CascadeHistories(cs, hs, s)[j] == CascadeHistories(cs[..k], hs[..k], s)[j]
    {
      assert cs[..k][..j] == cs[..j] && hs[..k][..j] == hs[..j];
    }
  }

  /**
   * Streaming through a cascade: running it over `s + u` gives what running
   * it over `s`, then over `u` from the histories `s` left, gives.
   */
  lemma {:induction false} CascadeSplit(cs: seq<Coeffs>, hs: seq<History>, s: seq<real>, u: seq<real>)
    requires |cs| == |hs|
    ensures Cascade(cs, hs, s + u) == Cascade(cs, hs, s) + Cascade(cs, CascadeHistories(cs, hs, s), u)
    decreases |cs|
  {
    if cs != [] {
      var k := |cs| - 1;
      var h' := CascadeHistories(cs, hs, s);
      CascadeSplit(cs[..k], hs[..k], s, u);
      CascadeHistoriesPrefix(cs, hs, s, k);
      FilteredSplit(cs[k], hs[k], Cascade(cs[..k], hs[..k], s), Cascade(cs[..k], h'[..k], u));
    }
  }

  /** The histories after streaming `s + u` are those after `u` from where `s` left them. */
  lemma CascadeHistoriesSplit(cs: seq<Coeffs>, hs: seq<History>, s: seq<real>, u: seq<real>)
    requires |cs| == |hs|
    ensures CascadeHistories(cs, hs, s + u) == CascadeHistories(cs, CascadeHistories(cs, hs, s), u)
  {
    var h' := CascadeHistories(cs, hs, s);
    forall j | 0 <= j < |cs|
      ensures CascadeHistories(cs, hs, s + u)[j] == CascadeHistories(cs, h', u)[j]
    {
      CascadeSplit(cs[..j], hs[..j], s, u);
      CascadeHistoriesPrefix(cs, hs, s, j);
      HistorySplit(cs[j], hs[j], Cascade(cs[..j], hs[..j], s), Cascade(cs[..j], h'[..j], u));
    }
  }

  /**
   * Two intended blocks in a row filter like one block over both decoded
   * runs: the second block's filtered samples continue the first's, and
   * the histories are those after the whole stream. Stale floats past a
   * block never enter.
   */
  lemma IntendedBlocksStream(d1: seq<real>, n1: nat, d2: seq<real>, n2: nat, cs: seq<Coeffs>, hs: seq<History>)
    requires n1 <= |d1| && n2 <= |d2| && |cs| == |hs|
    ensures var h1 := IntendedHistories(d1, n1, cs, hs);
      Cascade(cs, hs, d1[..n1] + d2[..n2]) == Cascade(cs, hs, d1[..n1]) + Cascade(cs, h1, d2[..n2]) &&
      IntendedHistories(d2, n2, cs, h1) == CascadeHistories(cs, hs, d1[..n1] + d2[..n2])
  {
    CascadeSplit(cs, hs, d1[..n1], d2[..n2]);
    CascadeHistoriesSplit(cs, hs, d1[..n1], d2[..n2]);
  }

  /**
   * The intended block is what the source computes for several channels,
   * over the decoded samples alone, and for one channel as well.
   */
  lemma IntendedBlockIsMultiChannelPathOnBlock(decoded: seq<real>, n: nat, channelCount: int,
                                               cs: seq<Coeffs>, hs: seq<History>, gain: real, limiterEnabled: bool)
    requires n <= |decoded| && |cs| == |hs| && channelCount >= 2
    ensures IntendedBlock(decoded, n, cs, hs, gain, limiterEnabled)[..n] ==
            BlockScratch(decoded[..n], n, channelCount, cs, hs, gain, limiterEnabled)
    ensures IntendedHistories(decoded, n, cs, hs) == BlockHistories(decoded[..n], n, channelCount, cs, hs)
  {
    var d := decoded[..n];
    assert d[..n] == d;
    var c := Cascade(cs, hs, d);
    var f := Finish(c, gain, limiterEnabled);
    assert c[..n] == c && c[n..] == [];
    assert BlockScratch(d, n, channelCount, cs, hs, gain, limiterEnabled) == f + [];
    assert IntendedBlock(decoded, n, cs, hs, gain, limiterEnabled) == f + decoded[n..];
    assert (f + decoded[n..])[..n] == f;
  }

  // ---------------------------------------------------------------------------
  // The loops of `getOutput`
  // ---------------------------------------------------------------------------

  /** `filter.process(samples.sliceArray(0 until n))`: the filter sees a copy; the samples stay. */
  method ProcessCopy(f: BiquadFilter, samples: array<real>, n: nat)
    requires f.configured && n <= samples.Length
    modifies f
    ensures f.configured && f.Coefficients() == old(f.Coefficients())
    ensures f.Hist() == HistoryAfter(old(f.Coefficients()), old(f.Hist()), samples[..n])
  {
    var slice := new real[n];
    forall k | 0 <= k < n {
      slice[k] := samples[k];
    }
    assert slice[..] == samples[..n];
    f.Process(slice);
  }

  /** Filter by filter, `fs` are configured and hold the coefficients `cs` and the histories `hs`. */
  ghost predicate Holding(fs: seq<BiquadFilter>, cs: seq<Coeffs>, hs: seq<History>)
    reads fs
  {
    |fs| == |cs| == |hs| &&
    forall j :: 0 <= j < |fs| ==> fs[j].configured && fs[j].Coefficients() == cs[j] && fs[j].Hist() == hs[j]
  }

  /** Configured filters hold their own coefficients and histories. */
  lemma HoldingOwn(fs: seq<BiquadFilter>)
    requires forall i :: 0 <= i < |fs| ==> fs[i].configured
    ensures Holding(fs, CoeffsOf(fs), HistoriesOf(fs))
  {
  }

  /** What the filters hold is what the list's coefficient and history functions give. */
  lemma HoldingMeans(fs: seq<BiquadFilter>, cs: seq<Coeffs>, hs: seq<History>)
    requires Holding(fs, cs, hs)
    ensures forall i :: 0 <= i < |fs| ==> fs[i].configured
    ensures CoeffsOf(fs) == cs && HistoriesOf(fs) == hs
  {
  }

  /** Mono: each filter processes a fresh copy of the first `n` samples; the samples stay. */
  method RunFiltersMono(fs: seq<BiquadFilter>, samples: array<real>, n: nat,
                        ghost cs: seq<Coeffs>, ghost hs: seq<History>)
    requires Distinct(fs) && n <= samples.Length && Holding(fs, cs, hs)
    modifies fs
    ensures Holding(fs, cs, MonoHistories(cs, hs, samples[..n]))
  {
    var i := 0;
    while i < |fs|
      invariant 0 <= i <= |fs|
      invariant forall j :: 0 <= j < |fs| ==> fs[j].configured && fs[j].Coefficients() == cs[j]
      invariant forall j :: 0 <= j < i ==> fs[j].Hist() == HistoryAfter(cs[j], hs[j], samples[..n])
      invariant forall j :: i <= j < |fs| ==> fs[j].Hist() == hs[j]
    {
      assert forall j :: 0 <= j < |fs| && j != i ==> fs[j] != fs[i];
      ProcessCopy(fs[i], samples, n);
      i := i + 1;
    }
  }

  /**
   * One filter of the cascade: `filter.processInterleaved(samples,
   * channelCount)` on the output of the filters before it.
   */
  method CascadeStep(f: BiquadFilter, samples: array<real>, channelCount: int,
                     ghost cs: seq<Coeffs>, ghost hs: seq<History>, ghost s0: seq<real>, ghost i: nat)
    requires |cs| == |hs| && i < |cs| && channelCount >= 1
    requires f.configured && f.Coefficients() == cs[i] && f.Hist() == hs[i]
    requires samples[..] == Cascade(cs[..i], hs[..i], s0)
    modifies f, samples
    ensures f.configured && f.Coefficients() == cs[i]
    ensures f.Hist() == CascadeHistories(cs, hs, s0)[i]
    ensures samples[..] == Cascade(cs[..i + 1], hs[..i + 1], s0)
  {
    CascadeSnoc(cs, hs, s0, i);
    f.ProcessInterleaved(samples, channelCount);
  }

  /** Where the cascade stands after its first `i` filters. */
  ghost predicate CascadedTo(fs: seq<BiquadFilter>, samples: array<real>, i: nat,
                             cs: seq<Coeffs>, hs: seq<History>, s0: seq<real>)
    reads fs, samples
  {
    |cs| == |hs| == |fs| && i <= |fs| &&
    samples[..] == Cascade(cs[..i], hs[..i], s0) &&
    forall j :: 0 <= j < |fs| ==>
      fs[j].configured && fs[j].Coefficients() == cs[j] &&
      fs[j].Hist() == if j < i then HistoryAfter(cs[j], hs[j], Cascade(cs[..j], hs[..j], s0)) else hs[j]
  }

  method CascadeNext(fs: seq<BiquadFilter>, samples: array<real>, channelCount: int, i: nat,
                     ghost cs: seq<Coeffs>, ghost hs: seq<History>, ghost s0: seq<real>)
    requires Distinct(fs) && channelCount >= 1 && i < |fs|
    requires CascadedTo(fs, samples, i, cs, hs, s0)
    modifies fs[i], samples
    ensures CascadedTo(fs, samples, i + 1, cs, hs, s0)
  {
    assert forall j :: 0 <= j < |fs| && j != i ==> fs[j] != fs[i];
    CascadeStep(fs[i], samples, channelCount, cs, hs, s0, i);
  }

  /** More than one channel: each filter in turn processes the whole scratch array in place. */
  method RunFiltersInterleaved(fs: seq<BiquadFilter>, samples: array<real>, channelCount: int,
                               ghost cs: seq<Coeffs>, ghost hs: seq<History>)
    requires Distinct(fs) && channelCount >= 1 && Holding(fs, cs, hs)
    modifies fs, samples
    ensures samples[..] == Cascade(cs, hs, old(samples[..]))
    ensures Holding(fs, cs, CascadeHistories(cs, hs, old(samples[..])))
  {
    ghost var s0 := samples[..];
    var i := 0;
    while i < |fs|
      invariant 0 <= i <= |fs|
      invariant CascadedTo(fs, samples, i, cs, hs, s0)
    {
      CascadeNext(fs, samples, channelCount, i, cs, hs, s0);
      i := i + 1;
    }
    CascadeComplete(fs, samples, cs, hs, s0);
  }

  lemma CascadeComplete(fs: seq<BiquadFilter>, samples: array<real>,
                        cs: seq<Coeffs>, hs: seq<History>, s0: seq<real>)
    requires CascadedTo(fs, samples, |fs|, cs, hs, s0)
    ensures samples[..] == Cascade(cs, hs, s0)
    ensures Holding(fs, cs, CascadeHistories(cs, hs, s0))
  {
    assert cs[..|fs|] == cs && hs[..|fs|] == hs;
  }

  /** The preamp loop: the first `count` samples multiplied by `gain`. */
  method ApplyPreamp(samples: array<real>, count: nat, gain: real)
    requires count <= samples.Length
    modifies samples
    ensures samples[..count] == Scale(old(samples[..count]), gain)
    ensures samples[count..] == old(samples[count..])
  {
    ghost var s0 := samples[..count];
    var i := 0;
    while i < count
      invariant 0 <= i <= count
      invariant forall j :: 0 <= j < i ==> samples[j] == Amplify(s0[j], gain)
      invariant forall j :: i <= j < count ==> samples[j] == s0[j]
      invariant samples[count..] == old(samples[count..])
    {
      samples[i] := Amplify(samples[i], gain);
      i := i + 1;
    }
  }

  /** First pass of `limitSamples`: the largest magnitude among the first `count` samples. */
  method PeakOf(samples: array<real>, count: nat) returns (maxSample: real)
    requires count <= samples.Length
    ensures maxSample == Peak(samples[..count])
  {
    maxSample := 0.0;
    var i := 0;
    while i < count
      invariant 0 <= i <= count
      invariant maxSample == Peak(samples[..i])
    {
      assert samples[..i + 1][..i] == samples[..i];
      maxSample := Max(maxSample, Abs(samples[i]));
      i := i + 1;
    }
  }

  /**
   * `limitSamples`: above the threshold the samples are scaled by
   * threshold / peak and clamped, otherwise only clamped.
   */
  method LimitSamples(samples: array<real>, count: nat)
    requires count <= samples.Length
    modifies samples
    ensures samples[..count] == Limited(old(samples[..count]))
    ensures samples[count..] == old(samples[count..])
  {
    ghost var s0 := samples[..count];
    ghost var lt := Limited(s0);
    var maxSample := PeakOf(samples, count);
    var i := 0;
    if maxSample > LimiterThreshold {
      var limitingGain := LimiterThreshold / maxSample;
      while i < count
        invariant 0 <= i <= count
        invariant forall j :: 0 <= j < i ==> samples[j] == lt[j]
        invariant forall j :: i <= j < count ==> samples[j] == s0[j]
        invariant samples[count..] == old(samples[count..])
      {
        LimitedAt(s0, i);
        samples[i] := Clamp(Amplify(samples[i], limitingGain), -1.0, 1.0);
        i := i + 1;
      }
    } else {
      while i < count
        invariant 0 <= i <= count
        invariant forall j :: 0 <= j < i ==> samples[j] == lt[j]
        invariant forall j :: i <= j < count ==> samples[j] == s0[j]
        invariant samples[count..] == old(samples[count..])
      {
        LimitedAt(s0, i);
        samples[i] := Clamp(samples[i], -1.0, 1.0);
        i := i + 1;
      }
    }
  }

  /** Zeroes every filter's history, keeping its coefficients: `filters.forEach { it.reset() }`. */
  method ResetFilters(fs: seq<BiquadFilter>, ghost cs: seq<Coeffs>, ghost hs: seq<History>)
    requires Distinct(fs) && Holding(fs, cs, hs)
    modifies fs
    ensures Holding(fs, cs, Silences(|fs|))
  {
    var i := 0;
    while i < |fs|
      invariant 0 <= i <= |fs|
      invariant forall j :: 0 <= j < |fs| ==>
        fs[j].configured && fs[j].Coefficients() == cs[j] && fs[j].Hist() == (if j < i then Silence else hs[j])
    {
      assert forall j :: 0 <= j < |fs| && j != i ==> fs[j] != fs[i];
      fs[i].Reset();
      i := i + 1;
    }
  }

  /** The filter a band gets: a new filter configured by the band's shape. */
  method NewFilter(band: EQBand, rate: real, trig: (real, real, real) -> Trig) returns (f: BiquadFilter)
    requires BandDesignable(band, rate, trig)
    ensures fresh(f) && f.configured && f.sampleRate == rate
    ensures f.Coefficients() == BandDesign(band, rate, trig) && f.Hist() == Silence
  {
    f := new BiquadFilter();
    var t := trig(band.frequency, band.gain, rate);
    if band.frequency < 100.0 {
      f.ConfigureLowShelf(band.q, rate, t);
    } else if band.frequency > 10000.0 {
      f.ConfigureHighShelf(band.q, rate, t);
    } else {
      f.ConfigurePeak(band.q, rate, t);
    }
  }

  ghost function Objects(fs: seq<BiquadFilter>): (r: set<object>)
    ensures forall i :: 0 <= i < |fs| ==> fs[i] in r
  {
    set f | f in fs
  }

  /** `fs` are distinct, configured filters holding the designs of the first `|fs|` bands, at rest. */
  ghost predicate Built(fs: seq<BiquadFilter>, bands: seq<EQBand>, rate: real, trig: (real, real, real) -> Trig)
    reads fs
  {
    |fs| <= |bands| && Distinct(fs) &&
    forall j :: 0 <= j < |fs| ==>
      fs[j].configured && BandDesignable(bands[j], rate, trig) &&
      fs[j].Coefficients() == BandDesign(bands[j], rate, trig) && fs[j].Hist() == Silence
  }

  /** `updateFilters`' loop: one new filter per band, in band order. */
  method BuildFilters(bands: seq<EQBand>, rate: real, trig: (real, real, real) -> Trig)
    returns (fs: seq<BiquadFilter>)
    requires BandsDesignable(bands, rate, trig)
    ensures |fs| == |bands| && Built(fs, bands, rate, trig)
    ensures fresh(Objects(fs))
  {
    fs := [];
    var i := 0;
    while i < |bands|
      invariant 0 <= i <= |bands| && |fs| == i
      invariant Built(fs, bands, rate, trig)
      invariant fresh(Objects(fs))
    {
      var f := NewFilter(bands[i], rate, trig);
      assert Objects(fs + [f]) == Objects(fs) + {f};
      fs := fs + [f];
      i := i + 1;
    }
  }

  /** A completed build holds the bands' designs and silent histories. */
  lemma BuiltDesigns(fs: seq<BiquadFilter>, bands: seq<EQBand>, rate: real, trig: (real, real, real) -> Trig)
    requires |fs| == |bands| && Built(fs, bands, rate, trig)
    ensures BandsDesignable(bands, rate, trig)
    ensures CoeffsOf(fs) == BandDesigns(bands, rate, trig)
    ensures HistoriesOf(fs) == Silences(|bands|)
  {
  }

  /**
   * The first half of a block: decode `n` shorts into the front of the
   * scratch array, then run the filters, on a copy in mono and in place over
   * the whole array otherwise.
   */
  method DecodeAndFilter(input: ByteBuffer, samples: array<real>, fs: seq<BiquadFilter>,
                         channelCount: int, n: nat, ghost cs: seq<Coeffs>, ghost hs: seq<History>,
                         ghost decoded: seq<real>)
    requires input.Valid() && 2 * n <= input.Remaining() && n <= samples.Length
    requires channelCount >= 1 && Distinct(fs) && Holding(fs, cs, hs)
    requires decoded == DecodeShorts(input.Pending(), n) + samples[n..]
    modifies input, samples, fs
    ensures input.Valid() && input.position == old(input.position) + 2 * n && input.limit == old(input.limit)
    ensures samples[..] == (if channelCount == 1 then decoded else Cascade(cs, hs, decoded))
    ensures Holding(fs, cs, BlockHistories(decoded, n, channelCount, cs, hs))
  {
    DecodeInto(input, samples, n);
    assert samples[..] == samples[..n] + samples[n..];
    assert samples[..] == decoded && decoded[..n] == samples[..n];
    if channelCount == 1 {
      RunFiltersMono(fs, samples, n, cs, hs);
    } else {
      RunFiltersInterleaved(fs, samples, channelCount, cs, hs);
    }
  }

  /**
   * The second half of a block: the preamp, the limiter when enabled, then
   * the write-back of the first `n` samples as shorts.
   */
  method FinishBlock(samples: array<real>, n: nat, preampGain: real, limiterEnabled: bool,
                     input: ByteBuffer, output: ByteBuffer,
                     ghost fs: seq<BiquadFilter>, ghost cs: seq<Coeffs>, ghost hs: seq<History>)
    requires input.Valid() && output.Valid() && input != output && input.data != output.data
    requires n <= samples.Length && 2 * n <= output.Capacity()
    requires Holding(fs, cs, hs)
    modifies samples, input, output, output.data
    ensures Holding(fs, cs, hs)
    ensures samples[..n] == Finish(old(samples[..n]), preampGain, limiterEnabled)
    ensures samples[n..] == old(samples[n..])
    ensures input.Valid() && input.position == 0 && input.limit == input.Capacity()
    ensures output.Valid() && output.Pending() == EncodeShorts(samples[..n])
  {
    ApplyPreamp(samples, n, preampGain);
    if limiterEnabled {
      LimitSamples(samples, n);
    }
    WriteBack(samples, n, input, output);
  }

  /** The block's scratch is the finished front of the filtered floats followed by their rest. */
  lemma BlockScratchOf(decoded: seq<real>, n: nat, channelCount: int, cs: seq<Coeffs>, hs: seq<History>,
                       gain: real, limiterEnabled: bool, filtered: seq<real>)
    requires n <= |decoded| && |cs| == |hs|
    requires filtered == if channelCount == 1 then decoded else Cascade(cs, hs, decoded)
    ensures BlockScratch(decoded, n, channelCount, cs, hs, gain, limiterEnabled)
         == Finish(filtered[..n], gain, limiterEnabled) + filtered[n..]
  {
  }

  /**
   * One block of `getOutput` past its checks, on the stage's buffers and
   * filters: the scratch array, the filters and the output end as the block
   * functions say, and the input is cleared.
   */
  method Equalize(input: ByteBuffer, output: ByteBuffer, samples: array<real>, fs: seq<BiquadFilter>,
                  channelCount: int, n: nat, preampGain: real, limiterEnabled: bool,
                  ghost cs: seq<Coeffs>, ghost hs: seq<History>, ghost decoded: seq<real>)
    requires input.Valid() && output.Valid() && input != output && input.data != output.data
    requires 2 * n <= input.Remaining() && n <= samples.Length && 2 * n <= output.Capacity()
    requires channelCount >= 1 && Distinct(fs) && Holding(fs, cs, hs)
    requires decoded == DecodeShorts(input.Pending(), n) + samples[n..]
    modifies input, output, output.data, samples, fs
    ensures samples[..] == BlockScratch(decoded, n, channelCount, cs, hs, preampGain, limiterEnabled)
    ensures Holding(fs, cs, BlockHistories(decoded, n, channelCount, cs, hs))
    ensures CoeffsOf(fs) == cs && HistoriesOf(fs) == BlockHistories(decoded, n, channelCount, cs, hs)
    ensures input.Valid() && input.position == 0 && input.limit == input.Capacity()
    ensures output.Valid() && output.Pending() == EncodeShorts(samples[..n])
  {
    ghost var histories := BlockHistories(decoded, n, channelCount, cs, hs);
    DecodeAndFilter(input, samples, fs, channelCount, n, cs, hs, decoded);
    ghost var filtered := samples[..];
    FinishBlock(samples, n, preampGain, limiterEnabled, input, output, fs, cs, histories);
    assert samples[..n] == Finish(filtered[..n], preampGain, limiterEnabled);
    assert samples[n..] == filtered[n..];
    assert samples[..] == samples[..n] + samples[n..];
    BlockScratchOf(decoded, n, channelCount, cs, hs, preampGain, limiterEnabled, filtered);
    HoldingMeans(fs, cs, histories);
  }

  /** `inputBuffer?.clear()` and `outputBuffer?.clear()`; the filters are not touched. */
  method ClearBuffers(input: ByteBuffer?, output: ByteBuffer?,
                      ghost fs: seq<BiquadFilter>, ghost cs: seq<Coeffs>, ghost hs: seq<History>)
    requires input != null ==> input.Valid()
    requires output != null ==> output.Valid()
    requires Holding(fs, cs, hs)
    modifies input, output
    ensures Holding(fs, cs, hs)
    ensures input != null ==> input.Valid() && input.position == 0 && input.limit == input.Capacity()
    ensures output != null ==> output.Valid() && output.position == 0 && output.limit == output.Capacity()
  {
    if input != null {
      input.Clear();
    }
    if output != null {
      output.Clear();
    }
  }

  /** The stage's settings: the bands, the preamp in dB and the limiter switch. */
  datatype Settings = Settings(bands: seq<EQBand>, preamp: real, limiterEnabled: bool)

  /** `isActive`: some band is set, or the preamp is not 0 dB. */
  function Active(s: Settings): bool {
    |s.bands| > 0 || s.preamp != 0.0
  }

  /** One distinct, configured filter per band. */
  ghost predicate FiltersOk(fs: seq<BiquadFilter>, bandCount: nat)
    reads fs
  {
    |fs| == bandCount && Distinct(fs) && forall i :: 0 <= i < |fs| ==> fs[i].configured
  }

  class ParametricEQProcessor {
    var bands: seq<EQBand>
    var preamp: real
    var limiterEnabled: bool
    var filters: seq<BiquadFilter>
    var inputAudioFormat: Option<AudioFormat>
    var outputAudioFormat: Option<AudioFormat>
    var inputBuffer: ByteBuffer?
    var outputBuffer: ByteBuffer?
    var buffer: array?<real>
    ghost var Repr: set<object>

    /** One configured filter per band, all distinct; the buffers as every stage keeps them. */
    ghost predicate Valid()
      reads this, Repr
    {
      this in Repr &&
      (inputBuffer != null ==> inputBuffer in Repr && inputBuffer.data in Repr) &&
      (outputBuffer != null ==> outputBuffer in Repr && outputBuffer.data in Repr) &&
      (buffer != null ==> buffer in Repr) &&
      (forall i :: 0 <= i < |filters| ==> filters[i] in Repr) &&
      BuffersOk(inputBuffer, outputBuffer, inputAudioFormat) &&
      FiltersOk(filters, |bands|)
    }

    function CurrentSettings(): Settings
      reads this
    {
      Settings(bands, preamp, limiterEnabled)
    }

    /** The three buffers, any of which may be missing. */
    function Buffers(): (ByteBuffer?, ByteBuffer?, array?<real>)
      reads this
    {
      (inputBuffer, outputBuffer, buffer)
    }

    function Formats(): (Option<AudioFormat>, Option<AudioFormat>)
      reads this
    {
      (inputAudioFormat, outputAudioFormat)
    }

    /** The coefficients of the filters, in band order. */
    ghost function Designs(): seq<Coeffs>
      reads this, Repr
      requires Valid()
    {
      CoeffsOf(filters)
    }

    /** The histories of the filters, in band order. */
    ghost function Histories(): seq<History>
      reads this, Repr
      requires Valid()
    {
      HistoriesOf(filters)
    }

    /** The input's pending bytes, or none without an input buffer. */
    ghost function PendingInput(): seq<byte>
      reads this, Repr
      requires Valid()
    {
      if inputBuffer == null then [] else inputBuffer.Pending()
    }

    /** Whether `getOutput` would process a block now, and over which floats. */
    ghost function Decision(): Outcome
      reads this, Repr
      requires Valid()
    {
      Decide(inputBuffer != null, outputBuffer != null, buffer != null, PendingInput(), inputAudioFormat,
             if buffer == null then [] else buffer[..])
    }

    ghost predicate InputCleared()
      reads this, Repr
      requires Valid()
    {
      inputBuffer != null && inputBuffer.position == 0 && inputBuffer.limit == inputBuffer.Capacity()
    }

    constructor ()
      ensures Valid() && fresh(Repr)
      ensures CurrentSettings() == Settings([], 0.0, true) && filters == []
      ensures inputAudioFormat == None && outputAudioFormat == None
      ensures inputBuffer == null && outputBuffer == null && buffer == null
    {
      bands, preamp, limiterEnabled := [], 0.0, true;
      filters := [];
      inputAudioFormat, outputAudioFormat := None, None;
      inputBuffer, outputBuffer, buffer := null, null, null;
      Repr := {this};
    }

    /**
     * `updateFilters`: drops the old filters and builds one new filter per
     * band, in band order, designed at the configured rate (44100 Hz before
     * `configure`).
     */
    method UpdateFilters(trig: (real, real, real) -> Trig)
      requires Valid() && BandsDesignable(bands, DesignRate(inputAudioFormat), trig)
      modifies this
      ensures Valid() && fresh(Repr - old(Repr))
      ensures CurrentSettings() == old(CurrentSettings())
      ensures Formats() == old(Formats()) && Buffers() == old(Buffers())
      ensures Designs() == BandDesigns(bands, DesignRate(inputAudioFormat), trig)
      ensures Histories() == Silences(|bands|)
    {
      var rate := if inputAudioFormat.Some? then inputAudioFormat.value.sampleRate as real else 44100.0;
      var fs := BuildFilters(bands, rate, trig);
      Install(bands, fs, rate, trig);
      BuiltDesigns(filters, bands, rate, trig);
    }

    /** Replaces the bands and the filter list by a completed build for them. */
    method Install(newBands: seq<EQBand>, fs: seq<BiquadFilter>, ghost rate: real, ghost trig: (real, real, real) -> Trig)
      requires Valid() && |fs| == |newBands| && Built(fs, newBands, rate, trig)
      modifies this
      ensures Valid() && Repr == old(Repr) + Objects(fs)
      ensures CurrentSettings() == old(CurrentSettings()).(bands := newBands)
      ensures Formats() == old(Formats()) && Buffers() == old(Buffers())
      ensures filters == fs && Built(filters, bands, rate, trig)
    {
      bands, filters, Repr := newBands, fs, Repr + Objects(fs);
    }

    /** `setBands`: replaces the bands, then rebuilds the filters as `updateFilters` does. */
    method SetBands(newBands: seq<EQBand>, trig: (real, real, real) -> Trig)
      requires Valid() && BandsDesignable(newBands, DesignRate(inputAudioFormat), trig)
      modifies this
      ensures Valid() && fresh(Repr - old(Repr))
      ensures CurrentSettings() == old(CurrentSettings()).(bands := newBands)
      ensures Formats() == old(Formats()) && Buffers() == old(Buffers())
      ensures Designs() == BandDesigns(newBands, DesignRate(inputAudioFormat), trig)
      ensures Histories() == Silences(|newBands|)
    {
      var rate := if inputAudioFormat.Some? then inputAudioFormat.value.sampleRate as real else 44100.0;
      var fs := BuildFilters(newBands, rate, trig);
      Install(newBands, fs, rate, trig);
      BuiltDesigns(filters, bands, rate, trig);
    }

    method SetPreamp(preampDb: real)
      requires Valid()
      modifies this
      ensures Valid() && Repr == old(Repr)
      ensures CurrentSettings() == old(CurrentSettings()).(preamp := preampDb)
      ensures filters == old(filters) && Formats() == old(Formats()) && Buffers() == old(Buffers())
    {
      preamp := preampDb;
    }

    method SetLimiterEnabled(enabled: bool)
      requires Valid()
      modifies this
      ensures Valid() && Repr == old(Repr)
      ensures CurrentSettings() == old(CurrentSettings()).(limiterEnabled := enabled)
      ensures filters == old(filters) && Formats() == old(Formats()) && Buffers() == old(Buffers())
    {
      limiterEnabled := enabled;
    }

    method IsActive() returns (r: bool)
      ensures r == Active(CurrentSettings())
    {
      r := |bands| > 0 || preamp != 0.0;
    }

    /** Records the format and allocates the buffers as every stage does; the filters stay. */
    method AttachBuffers(format: AudioFormat)
      requires Valid() && ValidFormat(format)
      modifies this
      ensures Valid() && fresh(Repr - old(Repr))
      ensures Formats() == (Some(format), Some(format))
      ensures CurrentSettings() == old(CurrentSettings()) && filters == old(filters)
      ensures inputBuffer != null && fresh(inputBuffer) && outputBuffer != null && fresh(outputBuffer)
      ensures buffer != null && fresh(buffer) && buffer.Length == ScratchSize(format)
      ensures inputBuffer.Capacity() == ByteCapacity(format) && InputCleared()
      ensures outputBuffer.position == 0 && outputBuffer.limit == ByteCapacity(format)
    {
      var input, output, scratch := AllocateBuffers(format);
      inputAudioFormat, outputAudioFormat := Some(format), Some(format);
      inputBuffer, outputBuffer, buffer := input, output, scratch;
      Repr := Repr + {input, input.data, output, output.data, scratch};
    }

    /**
     * `configure`: records the format, allocates the buffers and rebuilds
     * the filters at the new rate; the output format is the input format.
     */
    method Configure(format: AudioFormat, trig: (real, real, real) -> Trig) returns (outputFormat: AudioFormat)
      requires Valid() && ValidFormat(format) && BandsDesignable(bands, format.sampleRate as real, trig)
      modifies this
      ensures Valid() && fresh(Repr - old(Repr))
      ensures outputFormat == format && Formats() == (Some(format), Some(format))
      ensures CurrentSettings() == old(CurrentSettings())
      ensures inputBuffer != null && fresh(inputBuffer) && outputBuffer != null && fresh(outputBuffer)
      ensures buffer != null && fresh(buffer) && buffer.Length == ScratchSize(format)
      ensures inputBuffer.Capacity() == ByteCapacity(format) && InputCleared()
      ensures outputBuffer.position == 0 && outputBuffer.limit == ByteCapacity(format)
      ensures Designs() == BandDesigns(bands, format.sampleRate as real, trig)
      ensures Histories() == Silences(|bands|)
    {
      AttachBuffers(format);
      UpdateFilters(trig);
      outputFormat := format;
    }

    /** `queueInput`: appends the incoming bytes when they all fit, as every stage does. */
    method QueueInput(src: ByteBuffer)
      requires Valid() && src.Valid() && src !in Repr && src.data !in Repr
      modifies Repr, src
      ensures Valid() && Repr == old(Repr)
      ensures CurrentSettings() == old(CurrentSettings()) && filters == old(filters)
      ensures Formats() == old(Formats()) && Buffers() == old(Buffers())
      ensures forall i :: 0 <= i < |filters| ==> unchanged(filters[i])
      ensures outputBuffer != null ==> unchanged(outputBuffer, outputBuffer.data)
      ensures buffer != null ==> unchanged(buffer)
      ensures inputBuffer == null || old(src.Remaining()) > old(inputBuffer.Remaining()) ==>
        unchanged(src) && (inputBuffer != null ==> unchanged(inputBuffer, inputBuffer.data))
      ensures inputBuffer != null && old(src.Remaining()) <= old(inputBuffer.Remaining()) ==>
        inputBuffer.position == old(inputBuffer.position) + old(src.Remaining()) &&
        inputBuffer.limit == old(inputBuffer.limit) &&
        inputBuffer.data[..] == old(inputBuffer.data[..inputBuffer.position]) + old(src.Pending())
                                + old(inputBuffer.data[inputBuffer.position + src.Remaining()..]) &&
        src.position == src.limit == old(src.limit)
    {
      if inputBuffer == null {
        return;
      }
      Enqueue(inputBuffer, src);
    }

    /**
     * The state after one `getOutput` call that answered `r`: an empty
     * answer, or the output buffer flipped to hold the processed shorts,
     * the input cleared, the scratch array and the filter histories as the
     * block left them. Settings, format, buffers and coefficients stay.
     */
    twostate predicate Answered(pow10: real -> real, new r: ByteBuffer?)
      requires old(Valid())
      reads this, Repr, r
    {
      Kept() &&
      match old(Decision())
      case NoOutput => r != null && fresh(r) && Empty(r)
      case Overrun(decoded) =>
        r == null && inputBuffer != null && outputBuffer != null && buffer != null &&
        buffer[..] == decoded &&
        inputBuffer.position == old(inputBuffer.position) + 2 * (buffer.Length + 1) &&
        inputBuffer.limit == old(inputBuffer.limit) &&
        unchanged(outputBuffer, outputBuffer.data) &&
        Designs() == old(Designs()) && Histories() == old(Histories())
      case Processed(n, decoded) => ProcessedInto(pow10, r, n, decoded)
    }

    /** What every answer keeps: the settings, the formats, the buffers and the queued input bytes. */
    twostate predicate Kept()
      requires old(Valid())
      reads this, Repr
    {
      Valid() && Repr == old(Repr) &&
      CurrentSettings() == old(CurrentSettings()) && filters == old(filters) &&
      Formats() == old(Formats()) && Buffers() == old(Buffers()) &&
      (inputBuffer != null ==> unchanged(inputBuffer.data))
    }

    /**
     * The processed case: the scratch array holds the filtered block, the output
     * buffer its encoding, the input is cleared and the filter histories have
     * advanced over the block.
     */
    twostate predicate ProcessedInto(pow10: real -> real, new r: ByteBuffer?, n: nat, decoded: seq<real>)
      requires old(Valid())
      reads this, Repr, r
    {
      Valid() && n <= |decoded| && inputAudioFormat.Some? && buffer != null &&
      r == outputBuffer && r != null && r.Valid() && InputCleared() &&
      var ch := inputAudioFormat.value.channelCount;
      buffer[..] == BlockScratch(decoded, n, ch, old(Designs()), old(Histories()),
                                 pow10(old(preamp) / 20.0), old(limiterEnabled)) &&
      r.Pending() == EncodeShorts(buffer[..n]) &&
      Designs() == old(Designs()) &&
      Histories() == BlockHistories(decoded, n, ch, old(Designs()), old(Histories()))
    }

    /** `ByteBuffer.allocateDirect(0)`: the answer when a check fails; nothing else changes. */
    method EmptyAnswer(pow10: real -> real) returns (r: ByteBuffer?)
      requires Valid() && Decision().NoOutput?
      ensures Answered(pow10, r) && r != null && fresh(r) && Empty(r)
    {
      r := new ByteBuffer.Allocate(0);
    }

    /**
     * `getOutput`. A null answer stands for the ArrayIndexOutOfBoundsException
     * the decode loop raises when the frame guard lets through more floats
     * than the scratch array holds.
     */
    method GetOutput(pow10: real -> real) returns (r: ByteBuffer?)
      requires Valid()
      modifies Repr
      ensures Answered(pow10, r)
      ensures old(Decision()).NoOutput? ==> unchanged(Repr)
    {
      if inputBuffer == null || outputBuffer == null || buffer == null {
        r := EmptyAnswer(pow10);
        return;
      }
      var hasRemaining := inputBuffer.HasRemaining();
      if !hasRemaining {
        r := EmptyAnswer(pow10);
        return;
      }
      r := DrainFormatted(pow10);
    }

    /** With the buffers present and input pending: the format check and the scratch guard on frames. */
    method DrainFormatted(pow10: real -> real) returns (r: ByteBuffer?)
      requires Valid() && inputBuffer != null && outputBuffer != null && buffer != null
      requires inputBuffer.Remaining() > 0
      modifies Repr
      ensures Answered(pow10, r)
      ensures old(Decision()).NoOutput? ==> unchanged(Repr)
    {
      if inputAudioFormat.None? {
        r := EmptyAnswer(pow10);
        return;
      }
      var channelCount := inputAudioFormat.value.channelCount;
      var sampleCount := FrameCount(inputBuffer.Remaining(), channelCount);
      if sampleCount > buffer.Length {
        r := EmptyAnswer(pow10);
        return;
      }
      if Interleaved(sampleCount, channelCount) > buffer.Length {
        OverrunWindow(inputBuffer.Remaining(), channelCount, buffer.Length);
        DecodeOverrun(inputBuffer, buffer);
        r := null;
        return;
      }
      ghost var n := Interleaved(sampleCount, channelCount);
      ghost var decoded := DecodeShorts(inputBuffer.Pending(), n) + buffer[n..];
      r := DrainChecked(pow10, sampleCount, decoded);
    }

    /**
     * Past every check: decode, filter, preamp, limit and write back one
     * block, ending as the block functions say of the decoded input.
     */
    method DrainChecked(pow10: real -> real, sampleCount: nat, ghost decoded: seq<real>)
      returns (r: ByteBuffer?)
      requires Valid() && inputBuffer != null && outputBuffer != null && buffer != null
      requires inputAudioFormat.Some?
      requires var ch := inputAudioFormat.value.channelCount; var n := Interleaved(sampleCount, ch);
        2 * n <= inputBuffer.Remaining() && n <= buffer.Length &&
        decoded == DecodeShorts(inputBuffer.Pending(), n) + buffer[n..] &&
        Decision() == Processed(n, decoded)
      modifies Repr
      ensures Answered(pow10, r)
    {
      r := ProcessBlock(pow10, sampleCount, decoded);
    }

    /**
     * A block leaves the processor valid: its fields are untouched, both buffers
     * are still valid and the filters still configured.
     */
    twostate lemma ValidAfterBlock()
      requires old(Valid()) && unchanged(this)
      requires inputBuffer != null ==> inputBuffer.Valid()
      requires outputBuffer != null ==> outputBuffer.Valid()
      requires forall i :: 0 <= i < |filters| ==> filters[i].configured
      ensures Valid()
    {
      assert BuffersOk(inputBuffer, outputBuffer, inputAudioFormat);
    }

    /** The work of the processed case: the block is filtered into the scratch array and written out. */
    method ProcessBlock(pow10: real -> real, sampleCount: nat, ghost decoded: seq<real>)
      returns (r: ByteBuffer?)
      requires Valid() && inputBuffer != null && outputBuffer != null && buffer != null
      requires inputAudioFormat.Some?
      requires 2 * Interleaved(sampleCount, inputAudioFormat.value.channelCount) <= inputBuffer.Remaining()
      requires Interleaved(sampleCount, inputAudioFormat.value.channelCount) <= buffer.Length
      requires decoded == DecodeShorts(inputBuffer.Pending(), Interleaved(sampleCount, inputAudioFormat.value.channelCount))
                          + buffer[Interleaved(sampleCount, inputAudioFormat.value.channelCount)..]
      modifies Repr
      ensures Kept()
      ensures ProcessedInto(pow10, r, Interleaved(sampleCount, old(inputAudioFormat).value.channelCount), decoded)
    {
      var input, output, samples := inputBuffer, outputBuffer, buffer;
      var channelCount := inputAudioFormat.value.channelCount;
      var n := Interleaved(sampleCount, channelCount);
      ghost var cs, hs := Designs(), Histories();
      HoldingOwn(filters);
      var preampGain := pow10(preamp / 20.0);
      ghost var fs0 := filters;
      ghost var histories := BlockHistories(decoded, n, channelCount, cs, hs);
      Equalize(input, output, samples, filters, channelCount, n, preampGain, limiterEnabled, cs, hs, decoded);
      assert HistoriesOf(fs0) == histories;
      r := output;
      ValidAfterBlock();
      assert n <= |decoded| && inputAudioFormat.Some? && buffer != null;
      assert r == outputBuffer && r != null && r.Valid();
      assert InputCleared();
      assert buffer[..] == BlockScratch(decoded, n, channelCount, cs, hs, preampGain, old(limiterEnabled));
      assert r.Pending() == EncodeShorts(buffer[..n]);
      assert filters == fs0;
      assert Designs() == CoeffsOf(fs0) == cs;
      assert Histories() == HistoriesOf(fs0) == histories;
    }

    /** `flush`: clears both buffers and zeroes every filter's history. */
    method Flush()
      requires Valid()
      modifies Repr
      ensures Valid() && Repr == old(Repr)
      ensures CurrentSettings() == old(CurrentSettings()) && filters == old(filters)
      ensures Formats() == old(Formats()) && Buffers() == old(Buffers())
      ensures inputBuffer != null ==> inputBuffer.position == 0 && inputBuffer.limit == inputBuffer.Capacity()
      ensures outputBuffer != null ==> outputBuffer.position == 0 && outputBuffer.limit == outputBuffer.Capacity()
      ensures Designs() == old(Designs()) && Histories() == Silences(|bands|)
      ensures inputBuffer != null ==> unchanged(inputBuffer.data)
      ensures outputBuffer != null ==> unchanged(outputBuffer.data)
      ensures buffer != null ==> unchanged(buffer)
    {
      ghost var cs, hs := Designs(), Histories();
      HoldingOwn(filters);
      ClearBuffers(inputBuffer, outputBuffer, filters, cs, hs);
      assert BuffersOk(inputBuffer, outputBuffer, inputAudioFormat);
      ResetFilters(filters, cs, hs);
      HoldingMeans(filters, cs, Silences(|filters|));
      assert FiltersOk(filters, |bands|);
    }

    /** `reset`: what `flush` does, and the format is forgotten. */
    method Reset()
      requires Valid()
      modifies Repr
      ensures Valid() && Repr == old(Repr)
      ensures CurrentSettings() == old(CurrentSettings()) && filters == old(filters)
      ensures inputAudioFormat == None && outputAudioFormat == None
      ensures Buffers() == old(Buffers())
      ensures inputBuffer != null ==> inputBuffer.position == 0 && inputBuffer.limit == inputBuffer.Capacity()
      ensures outputBuffer != null ==> outputBuffer.position == 0 && outputBuffer.limit == outputBuffer.Capacity()
      ensures Designs() == old(Designs()) && Histories() == Silences(|bands|)
      ensures inputBuffer != null ==> unchanged(inputBuffer.data)
      ensures outputBuffer != null ==> unchanged(outputBuffer.data)
      ensures buffer != null ==> unchanged(buffer)
    {
      Flush();
      inputAudioFormat, outputAudioFormat := None, None;
    }
  }
}
