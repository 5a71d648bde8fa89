/**
 * The second-order IIR filter behind each equaliser band: coefficient
 * designs from the Audio EQ Cookbook (peaking EQ, low shelf, high shelf),
 * the direct-form-I recurrence, and the filter object that stores five
 * normalised coefficients and four history cells.
 *
 * `cos w`, `sin w`, `A = 10^(gain/40)` and `sqrt A` are computed by the host
 * and enter as a `Trig` value; frequency and gain reach a design only
 * through it.
 */
module Biquad {

  /** The five stored coefficients b0, b1, b2, a1, a2 (already divided by a0). */
  datatype Coeffs = Coeffs(b0: real, b1: real, b2: real, a1: real, a2: real)

  /** The four history cells: the last two inputs and the last two outputs. */
  datatype History = History(x1: real, x2: real, y1: real, y2: real)

  const Silence: History := History(0.0, 0.0, 0.0, 0.0)

  /** A freshly constructed filter: b0 = 1, every other coefficient 0. */
  const Identity: Coeffs := Coeffs(1.0, 0.0, 0.0, 0.0, 0.0)

  /** Host-computed trigonometry for one band: cos w, sin w, A and sqrt A. */
  datatype Trig = Trig(cosw: real, sinw: real, a: real, sqrtA: real)

  /** The cookbook coefficients before normalisation. */
  datatype Raw = Raw(b0: real, b1: real, b2: real, a0: real, a1: real, a2: real)

  datatype Shape = PeakShape | LowShelfShape | HighShelfShape

  // ---------------------------------------------------------------------------
  // Designs
  // ---------------------------------------------------------------------------

  /** Peaking EQ: alpha = sin w / 2q. */
  function PeakRaw(q: real, t: Trig): Raw
    requires q != 0.0 && t.a != 0.0
  {
    var alpha := t.sinw / (2.0 * q);
    Raw(1.0 + alpha * t.a, -2.0 * t.cosw, 1.0 - alpha * t.a,
        1.0 + alpha / t.a, -2.0 * t.cosw, 1.0 - alpha / t.a)
  }

  /** Low shelf: q enters only through beta = sqrt A / q. */
  function LowShelfRaw(q: real, t: Trig): Raw
    requires q != 0.0
  {
    var beta := t.sqrtA / q;
    var A := t.a;
    Raw(A * ((A + 1.0) - (A - 1.0) * t.cosw + beta * t.sinw),
        2.0 * A * ((A - 1.0) - (A + 1.0) * t.cosw),
        A * ((A + 1.0) - (A - 1.0) * t.cosw - beta * t.sinw),
        (A + 1.0) + (A - 1.0) * t.cosw + beta * t.sinw,
        -2.0 * ((A - 1.0) + (A + 1.0) * t.cosw),
        (A + 1.0) + (A - 1.0) * t.cosw - beta * t.sinw)
  }

  /** High shelf: q enters only through beta = sqrt A / q. */
  function HighShelfRaw(q: real, t: Trig): Raw
    requires q != 0.0
  {
    var beta := t.sqrtA / q;
    var A := t.a;
    Raw(A * ((A + 1.0) + (A - 1.0) * t.cosw + beta * t.sinw),
        -2.0 * A * ((A - 1.0) + (A + 1.0) * t.cosw),
        A * ((A + 1.0) + (A - 1.0) * t.cosw - beta * t.sinw),
        (A + 1.0) - (A - 1.0) * t.cosw + beta * t.sinw,
        2.0 * ((A - 1.0) - (A + 1.0) * t.cosw),
        (A + 1.0) - (A - 1.0) * t.cosw - beta * t.sinw)
  }

  /** The inputs for which a design divides by nothing that is zero. */
  predicate Designable(shape: Shape, q: real, t: Trig) {
    q != 0.0 &&
    match shape
    case PeakShape => t.a != 0.0 && PeakRaw(q, t).a0 != 0.0
    case LowShelfShape => LowShelfRaw(q, t).a0 != 0.0
    case HighShelfShape => HighShelfRaw(q, t).a0 != 0.0
  }

  function RawDesign(shape: Shape, q: real, t: Trig): (r: Raw)
    requires Designable(shape, q, t)
    ensures r.a0 != 0.0
  {
    match shape
    case PeakShape => PeakRaw(q, t)
    case LowShelfShape => LowShelfRaw(q, t)
    case HighShelfShape => HighShelfRaw(q, t)
  }

  /** Each raw coefficient divided by a0. */
  function Normalized(r: Raw): Coeffs
    requires r.a0 != 0.0
  {
    Coeffs(r.b0 / r.a0, r.b1 / r.a0, r.b2 / r.a0, r.a1 / r.a0, r.a2 / r.a0)
  }

  /** The coefficients a `configure*` call stores. */
  function Design(shape: Shape, q: real, t: Trig): Coeffs
    requires Designable(shape, q, t)
  {
    Normalized(RawDesign(shape, q, t))
  }

  /** Coefficients under which the recurrence reproduces its input. */
  predicate Transparent(c: Coeffs) {
    c.b0 == 1.0 && c.b1 == c.a1 && c.b2 == c.a2
  }

  /** The peaking design stores the same value in b1 and a1: -2 cos w / a0. */
  lemma PeakFeedforwardMatchesFeedback(q: real, t: Trig)
    requires Designable(PeakShape, q, t)
    ensures Design(PeakShape, q, t).b1 == Design(PeakShape, q, t).a1
    ensures Design(PeakShape, q, t).a1 * PeakRaw(q, t).a0 == -2.0 * t.cosw
  {
  }

  lemma DividedEqualsOne(x: real, y: real)
    requires y != 0.0 && x == y
    ensures x / y == 1.0
  {
  }

  /** At 0 dB (A = 1) every design is transparent: b0 = 1, b1 = a1, b2 = a2. */
  lemma UnityGainDesignsAreTransparent(shape: Shape, q: real, t: Trig)
    requires Designable(shape, q, t) && t.a == 1.0
    ensures Transparent(Design(shape, q, t))
  {
    var r := RawDesign(shape, q, t);
    match shape {
      case PeakShape =>
        var alpha := t.sinw / (2.0 * q);
        assert alpha * t.a == alpha && alpha / t.a == alpha;
        assert r.b0 == r.a0 && r.b1 == r.a1 && r.b2 == r.a2;
      case LowShelfShape =>
        assert r.b0 == r.a0 && r.b1 == r.a1 && r.b2 == r.a2;
      case HighShelfShape =>
        assert r.b0 == r.a0 && r.b1 == r.a1 && r.b2 == r.a2;
    }
    DividedEqualsOne(r.b0, r.a0);
  }

  // ---------------------------------------------------------------------------
  // The recurrence
  // ---------------------------------------------------------------------------

  /** One output: b0 x + b1 x1 + b2 x2 - a1 y1 - a2 y2. */
  function Output(c: Coeffs, h: History, x: real): real {
    c.b0 * x + c.b1 * h.x1 + c.b2 * h.x2 - c.a1 * h.y1 - c.a2 * h.y2
  }

  /** The history after input `x` produced output `y`. */
  function Shift(h: History, x: real, y: real): (h': History)
    ensures h'.x1 == x && h'.y1 == y && h'.x2 == h.x1 && h'.y2 == h.y1
  {
    History(x, h.x1, y, h.y1)
  }

  /** The history after running the filter over `s`. */
  function HistoryAfter(c: Coeffs, h: History, s: seq<real>): History
    decreases |s|
  {
    if s == [] then h
    else
      var h' := HistoryAfter(c, h, s[..|s| - 1]);
      Shift(h', s[|s| - 1], Output(c, h', s[|s| - 1]))
  }

  /** The outputs of the filter run over `s` from history `h`. */
  function Filtered(c: Coeffs, h: History, s: seq<real>): (r: seq<real>)
    ensures |r| == |s|
    decreases |s|
  {
    if s == [] then []
    else Filtered(c, h, s[..|s| - 1]) + [Output(c, HistoryAfter(c, h, s[..|s| - 1]), s[|s| - 1])]
  }

  /** Extending the processed prefix by one sample. */
  lemma StepOnce(c: Coeffs, h: History, s: seq<real>, i: nat)
    requires i < |s|
    ensures Filtered(c, h, s[..i + 1])
         == Filtered(c, h, s[..i]) + [Output(c, HistoryAfter(c, h, s[..i]), s[i])]
    ensures HistoryAfter(c, h, s[..i + 1])
         == Shift(HistoryAfter(c, h, s[..i]), s[i], Output(c, HistoryAfter(c, h, s[..i]), s[i]))
  {
    assert s[..i + 1][..i] == s[..i];
  }

  /** Appending one sample appends its output and shifts it into the history. */
  lemma FilteredSnoc(c: Coeffs, h: History, v: seq<real>, x: real)
    ensures Filtered(c, h, v + [x]) == Filtered(c, h, v) + [Output(c, HistoryAfter(c, h, v), x)]
    ensures HistoryAfter(c, h, v + [x])
         == Shift(HistoryAfter(c, h, v), x, Output(c, HistoryAfter(c, h, v), x))
  {
    assert (v + [x])[..|v + [x]| - 1] == v;
  }

  /** Running over `s + u` leaves the history that running over `u` leaves after `s`. */
  lemma {:induction false} HistorySplit(c: Coeffs, h: History, s: seq<real>, u: seq<real>)
    ensures HistoryAfter(c, h, s + u) == HistoryAfter(c, HistoryAfter(c, h, s), u)
    decreases |u|
  {
    if u == [] {
      assert s + u == s;
    } else {
      var u', x := u[..|u| - 1], u[|u| - 1];
      assert u == u' + [x] && s + u == (s + u') + [x];
      HistorySplit(c, h, s, u');
      FilteredSnoc(c, h, s + u', x);
      FilteredSnoc(c, HistoryAfter(c, h, s), u', x);
    }
  }

  /**
   * Streaming: filtering `s + u` in one go gives the same outputs as
   * filtering `s`, then `u` from where `s` left the history.
   */
  lemma {:induction false} FilteredSplit(c: Coeffs, h: History, s: seq<real>, u: seq<real>)
    ensures Filtered(c, h, s + u) == Filtered(c, h, s) + Filtered(c, HistoryAfter(c, h, s), u)
    decreases |u|
  {
    if u == [] {
      assert s + u == s;
    } else {
      var u', x := u[..|u| - 1], u[|u| - 1];
      assert u == u' + [x] && s + u == (s + u') + [x];
      FilteredSplit(c, h, s, u');
      HistorySplit(c, h, s, u');
      FilteredSnoc(c, h, s + u', x);
      FilteredSnoc(c, HistoryAfter(c, h, s), u', x);
    }
  }

  /**
   * A transparent filter whose history has x1 = y1 and x2 = y2 (a reset
   * filter, for instance) outputs its input unchanged and keeps that shape.
   */
  lemma {:induction false} TransparentFilter(c: Coeffs, h: History, s: seq<real>)
    requires Transparent(c) && h.x1 == h.y1 && h.x2 == h.y2
    ensures Filtered(c, h, s) == s
    ensures HistoryAfter(c, h, s).x1 == HistoryAfter(c, h, s).y1
    ensures HistoryAfter(c, h, s).x2 == HistoryAfter(c, h, s).y2
    decreases |s|
  {
    if s != [] {
      var p := s[..|s| - 1];
      TransparentFilter(c, h, p);
      var h' := HistoryAfter(c, h, p);
      assert Output(c, h', s[|s| - 1]) == s[|s| - 1];
      assert p + [s[|s| - 1]] == s;
    }
  }

  // ---------------------------------------------------------------------------
  // The filter object
  // ---------------------------------------------------------------------------

  class BiquadFilter {
    var b0: real
    var b1: real
    var b2: real
    var a1: real
    var a2: real
    var x1: real
    var x2: real
    var y1: real
    var y2: real
    var sampleRate: real
    var configured: bool

    function Coefficients(): Coeffs
      reads this
    {
      Coeffs(b0, b1, b2, a1, a2)
    }

    function Hist(): History
      reads this
    {
      History(x1, x2, y1, y2)
    }

    /** A new filter: identity coefficients, silent history, 44100 Hz, unconfigured. */
    constructor ()
      ensures Coefficients() == Identity && Hist() == Silence
      ensures sampleRate == 44100.0 && !configured
    {
      b0, b1, b2, a1, a2 := 1.0, 0.0, 0.0, 0.0, 0.0;
      x1, x2, y1, y2 := 0.0, 0.0, 0.0, 0.0;
      sampleRate := 44100.0;
      configured := false;
    }

    /** Stores the normalised design, marks the filter configured and zeroes the history. */
    method Configure(shape: Shape, q: real, rate: real, t: Trig)
      requires Designable(shape, q, t)
      modifies this
      ensures Coefficients() == Design(shape, q, t)
      ensures configured && Hist() == Silence && sampleRate == rate
    {
      sampleRate := rate;
      var r := RawDesign(shape, q, t);
      b0 := r.b0 / r.a0;
      b1 := r.b1 / r.a0;
      b2 := r.b2 / r.a0;
      a1 := r.a1 / r.a0;
      a2 := r.a2 / r.a0;
      configured := true;
      Reset();
    }

    method ConfigurePeak(q: real, rate: real, t: Trig)
      requires Designable(PeakShape, q, t)
      modifies this
      ensures Coefficients() == Design(PeakShape, q, t)
      ensures configured && Hist() == Silence && sampleRate == rate
    {
      Configure(PeakShape, q, rate, t);
    }

    method ConfigureLowShelf(q: real, rate: real, t: Trig)
      requires Designable(LowShelfShape, q, t)
      modifies this
      ensures Coefficients() == Design(LowShelfShape, q, t)
      ensures configured && Hist() == Silence && sampleRate == rate
    {
      Configure(LowShelfShape, q, rate, t);
    }

    method ConfigureHighShelf(q: real, rate: real, t: Trig)
      requires Designable(HighShelfShape, q, t)
      modifies this
      ensures Coefficients() == Design(HighShelfShape, q, t)
      ensures configured && Hist() == Silence && sampleRate == rate
    {
      Configure(HighShelfShape, q, rate, t);
    }

    /** One sample through the recurrence, shifting the history. */
    method Step(input: real) returns (output: real)
      modifies this
      ensures output == Output(old(Coefficients()), old(Hist()), input)
      ensures Hist() == Shift(old(Hist()), input, output)
      ensures Coefficients() == old(Coefficients())
      ensures configured == old(configured) && sampleRate == old(sampleRate)
    {
      output := b0 * input + b1 * x1 + b2 * x2 - a1 * y1 - a2 * y2;
      x2 := x1;
      x1 := input;
      y2 := y1;
      y1 := output;
    }

    /**
     * The first `k` samples hold the filtered prefix of `s0`, the rest are
     * untouched, and the history is the one that prefix leaves.
     */
    ghost predicate FilteredUpTo(samples: array<real>, k: nat, c: Coeffs, h0: History, s0: seq<real>)
      reads this, samples
    {
      k <= samples.Length == |s0| && Coefficients() == c &&
      samples[..k] == Filtered(c, h0, s0[..k]) && samples[k..] == s0[k..] &&
      Hist() == HistoryAfter(c, h0, s0[..k])
    }

    /** The loop body both processing loops share: one more sample filtered in place. */
    method StepAt(samples: array<real>, k: nat, ghost c: Coeffs, ghost h0: History, ghost s0: seq<real>)
      requires k < samples.Length && FilteredUpTo(samples, k, c, h0, s0)
      modifies this, samples
      ensures FilteredUpTo(samples, k + 1, c, h0, s0)
      ensures configured == old(configured) && sampleRate == old(sampleRate)
    {
      StepOnce(c, h0, s0, k);
      var output := Step(samples[k]);
      samples[k] := output;
      assert samples[..k + 1] == samples[..k] + [output];
      assert samples[k + 1..] == s0[k + 1..];
    }

    /** Filters `samples` in place; an unconfigured filter touches nothing. */
    method Process(samples: array<real>)
      modifies this, samples
      ensures Coefficients() == old(Coefficients())
      ensures configured == old(configured) && sampleRate == old(sampleRate)
      ensures old(configured) ==>
        samples[..] == Filtered(old(Coefficients()), old(Hist()), old(samples[..])) &&
        Hist() == HistoryAfter(old(Coefficients()), old(Hist()), old(samples[..]))
      ensures !old(configured) ==> samples[..] == old(samples[..]) && Hist() == old(Hist())
    {
      if !configured {
        return;
      }
      ghost var c, h0, s0 := Coefficients(), Hist(), samples[..];
      var i := 0;
      while i < samples.Length
        invariant 0 <= i <= samples.Length && FilteredUpTo(samples, i, c, h0, s0)
        invariant configured && sampleRate == old(sampleRate)
      {
        StepAt(samples, i, c, h0, s0);
        i := i + 1;
      }
      assert samples[..] == samples[..i] && s0 == s0[..i];
    }

    /**
     * Filters interleaved frames in place with one shared history: frame by
     * frame, channel by channel, stopping at the end of the array. It visits
     * every index once in ascending order, so it computes exactly what
     * `Process` computes on the whole array.
     */
    method ProcessInterleaved(samples: array<real>, channelCount: int)
      modifies this, samples
      ensures Coefficients() == old(Coefficients())
      ensures configured == old(configured) && sampleRate == old(sampleRate)
      ensures old(configured) && channelCount >= 1 ==>
        samples[..] == Filtered(old(Coefficients()), old(Hist()), old(samples[..])) &&
        Hist() == HistoryAfter(old(Coefficients()), old(Hist()), old(samples[..]))
      ensures !old(configured) || channelCount < 1 ==>
        samples[..] == old(samples[..]) && Hist() == old(Hist())
    {
      if !configured || channelCount < 1 {
        return;
      }
      ghost var c, h0, s0 := Coefficients(), Hist(), samples[..];
      var n := samples.Length;
      ghost var done := 0;
      var i := 0;
      while i < n
        invariant 0 <= i && done <= n
        invariant i < n ==> done == i
        invariant i >= n ==> done == n
        invariant FilteredUpTo(samples, done, c, h0, s0)
        invariant configured && sampleRate == old(sampleRate)
      {
        var ch := 0;
        while ch < channelCount
          invariant 0 <= ch <= channelCount && i + ch <= n && done == i + ch
          invariant FilteredUpTo(samples, done, c, h0, s0)
          invariant configured && sampleRate == old(sampleRate)
        {
          var idx := i + ch;
          if idx >= n {
            break;
          }
          StepAt(samples, idx, c, h0, s0);
          done := done + 1;
          ch := ch + 1;
        }
        i := i + channelCount;
      }
      assert done == n;
      assert samples[..] == samples[..done] && s0 == s0[..done];
    }

    /** Zeroes the history; coefficients and `configured` stay. */
    method Reset()
      modifies this
      ensures Hist() == Silence
      ensures Coefficients() == old(Coefficients())
      ensures configured == old(configured) && sampleRate == old(sampleRate)
    {
      x1 := 0.0;
      x2 := 0.0;
      y1 := 0.0;
      y2 := 0.0;
    }

    method IsConfigured() returns (r: bool)
      ensures r == configured
    {
      r := configured;
    }
  }
}
