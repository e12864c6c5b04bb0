/** `MyEffect` of EffectPlugin.cpp/EffectPlugin.h: the dual-band compressor.

    Per input sample (left, right) the effect
      1. splits each channel into a high band (high-pass filter of the
         negated input) and a low band (low-pass filter of the input);
      2. feeds the raw channels to the detectors for the mono meters;
      3. passes the four band signals through `delay`, four calls that all
         use the first ring buffer and its single write position;
      4. feeds each band to the band's peak and RMS detector (the same two
         objects serve both channels and the mono meters);
      5. when the detect mode is 0 (peak) or 1 (RMS), compresses each delayed
         band by the gain computed from that detector's level, mixes and
         publishes the meters;
      6. writes the stereo mix (mono flag 0), the mono mix to both channels
         (mono flag 1), or nothing (any other value).

    The fixed two-by-two C arrays (channel x = left/right, band i =
    high/low) are the value types `Quad` and `Bands`; the loops over them are
    written out.  The whole per-sample step is specified by `SampleStep`, a
    function on an `EffectState` snapshot, and the block by `Run`. */
module Compressor {
  import opened Numerics
  import opened Envelope
  import opened Controls
  import opened Parameters
  import opened Ring

  // ---------------------------------------------------------------------
  // Values
  // ---------------------------------------------------------------------

  /** Index 0 of a band pair is the high-pass band, index 1 the low-pass band. */
  datatype Bands = Bands(high: real, low: real)

  /** Index 0 of a channel pair is the left channel, index 1 the right. */
  datatype Quad = Quad(left: Bands, right: Bands)

  /** The values `process` reads from the parameters once per block. */
  datatype Settings = Settings(
    thresh: Bands,      // dB, clamped
    makeup: Bands,      // 1 + dB(parameter), used as a linear factor
    ratio: Bands,
    attack: real,
    release: real,
    centre: real,
    mono: real,
    knee: real,         // dB
    compType: real,
    lookahead: real)    // seconds, before quantisation

  /** The members `compressAndSendToMeter` writes. */
  datatype MixResult = MixResult(
    comp: Quad, combined: Quad, left: Bands, right: Bands, monoMix: real, total: real)

  /** Tick histories of the four STK filter objects `hpf[x]` and `lpf[x]`. */
  datatype Filters = Filters(high0: seq<Tick>, high1: seq<Tick>, low0: seq<Tick>, low1: seq<Tick>)

  datatype Detectors = Detectors(peak0: PeakState, peak1: PeakState, rms0: RmsState, rms1: RmsState)

  /** Everything one sample step reads or writes, as a value. */
  datatype EffectState = EffectState(
    params: seq<real>,
    det: Detectors,
    filters: Filters,
    cells: seq<real>,     // pfCircularBuffer0
    writePos: int,
    band: Quad,           // fBand
    monoPeak: real,
    monoRms: real,
    mix: MixResult)

  // ---------------------------------------------------------------------
  // Block settings
  // ---------------------------------------------------------------------

  /** A threshold parameter in dB; below -100 dB it is replaced by -60 dB. */
  function ThresholdDb(lib: Lib, p: real): (t: real)
    ensures t >= -100.0
    ensures LinearToDecibel(lib, p) >= -100.0 ==> t == LinearToDecibel(lib, p)
    ensures LinearToDecibel(lib, p) < -100.0 ==> t == -60.0
  {
    var db := LinearToDecibel(lib, p);
    if db < -100.0 then -60.0 else db
  }

  /** The makeup factor: 1 plus the parameter in dB (so a parameter of 1,
      0 dB, gives unity). */
  function MakeupGain(lib: Lib, p: real): (g: real)
    ensures lib.log10(p) == 0.0 ==> g == 1.0
    ensures g - 1.0 == LinearToDecibel(lib, p)
  {
    1.0 + LinearToDecibel(lib, p)
  }

  /** The parameter reads at the top of `process`.  Band 0 uses parameters
      0, 1, 2 and band 1 parameters 7, 8, 9. */
  function BlockSettings(lib: Lib, params: seq<real>): (s: Settings)
    requires |params| == NumberOfParameters
    ensures s.thresh == Bands(ThresholdDb(lib, params[ThresholdHighParam]), ThresholdDb(lib, params[ThresholdLowParam]))
    ensures s.makeup == Bands(MakeupGain(lib, params[MakeupHighParam]), MakeupGain(lib, params[MakeupLowParam]))
    ensures s.ratio == Bands(params[RatioHighParam], params[RatioLowParam])
    ensures s.attack + params[AttackParam] == 0.1 && s.release + params[ReleaseParam] == 0.1
    ensures s.knee == LinearToDecibel(lib, params[KneeParam])
    ensures s.centre == params[CentreFrequencyParam] && s.mono == params[MonoParam]
    ensures s.compType == params[DetectModeParam] && s.lookahead == params[LookaheadParam]
  {
    Settings(
      Bands(ThresholdDb(lib, params[0]), ThresholdDb(lib, params[7])),
      Bands(MakeupGain(lib, params[2]), MakeupGain(lib, params[9])),
      Bands(params[1], params[8]),
      0.1 - params[10],
      0.1 - params[11],
      params[12],
      params[13],
      LinearToDecibel(lib, params[14]),
      params[3],
      params[15])
  }

  /** With the attack and release knobs inside their control ranges, both
      smoothing coefficients lie in (0, 1], so every detector update stays
      between its previous output and the new window value. */
  lemma KnobRangesGiveUnitCoefficients(lib: Lib, params: seq<real>)
    requires |params| == NumberOfParameters
    requires UiControls[AttackParam].min <= params[AttackParam] <= UiControls[AttackParam].max
    requires UiControls[ReleaseParam].min <= params[ReleaseParam] <= UiControls[ReleaseParam].max
    ensures var s := BlockSettings(lib, params);
      0.0 < s.attack <= 0.1 && 0.0 < s.release <= 0.001
  {
  }

  // ---------------------------------------------------------------------
  // compressAndSendToMeter and the output selection
  // ---------------------------------------------------------------------

  /** The gain-scaled signals, the makeup-scaled bands, the mono mix and
      the mean gain for given gains `g`: each delayed band is multiplied
      by its own gain, then by its band's makeup; the mono mix is the mean
      of the two channels' band sums. */
  function Mix(delayed: Quad, g: Quad, s: Settings): (m: MixResult)
    ensures m.comp == g
    ensures 4.0 * m.total == g.left.high + g.left.low + g.right.high + g.right.low
    ensures m.combined == Quad(
      Bands(delayed.left.high * g.left.high, delayed.left.low * g.left.low),
      Bands(delayed.right.high * g.right.high, delayed.right.low * g.right.low))
    ensures m.left == Bands(delayed.left.high * g.left.high * s.makeup.high,
                            delayed.left.low * g.left.low * s.makeup.low)
    ensures m.right == Bands(delayed.right.high * g.right.high * s.makeup.high,
                             delayed.right.low * g.right.low * s.makeup.low)
  {
    var c := Quad(
      Bands(delayed.left.high * g.left.high, delayed.left.low * g.left.low),
      Bands(delayed.right.high * g.right.high, delayed.right.low * g.right.low));
    var highPass := ((c.left.high + c.right.high) / 2.0) * s.makeup.high;
    var lowPass := ((c.left.low + c.right.low) / 2.0) * s.makeup.low;
    MixResult(
      g,
      c,
      Bands(c.left.high * s.makeup.high, c.left.low * s.makeup.low),
      Bands(c.right.high * s.makeup.high, c.right.low * s.makeup.low),
      (highPass + lowPass) / 2.0,
      (g.left.high + g.left.low + g.right.high + g.right.low) / 4.0)
  }

  /** The four gains: band i of both channels is compressed with band i's
      threshold and ratio, and the shared knee width. */
  function Gains(lib: Lib, levels: Quad, s: Settings): Quad
    requires lib.Sane()
  {
    Quad(
      Bands(Compress(lib, levels.left.high, s.thresh.high, s.ratio.high, s.knee),
            Compress(lib, levels.left.low, s.thresh.low, s.ratio.low, s.knee)),
      Bands(Compress(lib, levels.right.high, s.thresh.high, s.ratio.high, s.knee),
            Compress(lib, levels.right.low, s.thresh.low, s.ratio.low, s.knee)))
  }

  /** The gains, the gain-scaled signals, the makeup-scaled bands, the mono
      mix and the mean gain computed from the delayed signals and the
      detector levels. */
  function CompressAll(lib: Lib, delayed: Quad, levels: Quad, s: Settings): (m: MixResult)
    requires lib.Sane()
    ensures m.comp == Quad(
      Bands(Compress(lib, levels.left.high, s.thresh.high, s.ratio.high, s.knee),
            Compress(lib, levels.left.low, s.thresh.low, s.ratio.low, s.knee)),
      Bands(Compress(lib, levels.right.high, s.thresh.high, s.ratio.high, s.knee),
            Compress(lib, levels.right.low, s.thresh.low, s.ratio.low, s.knee)))
    ensures m == Mix(delayed, m.comp, s)
  {
    Mix(delayed, Gains(lib, levels, s), s)
  }

  /** The stereo output of one channel: the mean of its two bands. */
  function StereoOut(b: Bands): real
  {
    (b.high + b.low) / 2.0
  }

  /** What one sample writes to the two output channels, if anything. */
  function SelectOutput(mono: real, left: Bands, right: Bands, monoMix: real): (o: Option<(real, real)>)
    ensures mono == 0.0 ==> o == Some((StereoOut(left), StereoOut(right)))
    ensures mono == 1.0 ==> o == Some((monoMix, monoMix))
    ensures o.None? <==> mono != 0.0 && mono != 1.0
  {
    if mono == 0.0 then Some((StereoOut(left), StereoOut(right)))
    else if mono == 1.0 then Some((monoMix, monoMix))
    else None
  }

  /** The mono mix is the mean of the two stereo outputs, whatever the
      gains: mono mode sends both channels the average of what stereo mode
      would send. */
  lemma MonoMixIsMeanOfStereo(delayed: Quad, g: Quad, s: Settings)
    ensures var m := Mix(delayed, g, s);
      m.monoMix == (StereoOut(m.left) + StereoOut(m.right)) / 2.0
  {
    var c := Mix(delayed, g, s).combined;
    var k := s.makeup;
    assert ((c.left.high + c.right.high) / 2.0) * k.high == (c.left.high * k.high + c.right.high * k.high) / 2.0;
    assert ((c.left.low + c.right.low) / 2.0) * k.low == (c.left.low * k.low + c.right.low * k.low) / 2.0;
  }

  /** For a monotone 10^x and both ratios at least 1, every gain and the
      published total compression lie in (0, 1]. */
  lemma TotalCompressionInUnitInterval(lib: Lib, delayed: Quad, levels: Quad, s: Settings)
    requires lib.Sane() && lib.Monotone() && s.ratio.high >= 1.0 && s.ratio.low >= 1.0
    ensures var m := CompressAll(lib, delayed, levels, s);
      0.0 < m.total <= 1.0 &&
      0.0 < m.comp.left.high <= 1.0 && 0.0 < m.comp.left.low <= 1.0 &&
      0.0 < m.comp.right.high <= 1.0 && 0.0 < m.comp.right.low <= 1.0
  {
    CompressNeverBoosts(lib, levels.left.high, s.thresh.high, s.ratio.high, s.knee);
    CompressNeverBoosts(lib, levels.left.low, s.thresh.low, s.ratio.low, s.knee);
    CompressNeverBoosts(lib, levels.right.high, s.thresh.high, s.ratio.high, s.knee);
    CompressNeverBoosts(lib, levels.right.low, s.thresh.low, s.ratio.low, s.knee);
  }

  /** A gain in (0, 1] never makes a band louder than its makeup factor
      alone would. */
  lemma ScaledWithin(x: real, d: real, g: real, k: real)
    requires 0.0 < g <= 1.0 && x == d * g * k
    ensures Abs(x) <= Abs(k) * Abs(d)
  {
    assert Abs(x) == Abs(d) * Abs(k) * g by {
      if d >= 0.0 && k >= 0.0 { ProductSign(d * g, k); }
      else if d >= 0.0 { assert d * g * k == -(d * g * -k); ProductSign(d * g, -k); }
      else if k >= 0.0 { assert d * g * k == -(-d * g * k); ProductSign(-d * g, k); }
      else { assert d * g * k == -d * g * -k; ProductSign(-d * g, -k); }
    }
    ProductSign(Abs(d), Abs(k));
    assert Abs(d) * Abs(k) * g <= Abs(d) * Abs(k) * 1.0;
  }

  /** Each band of `out` is at most the makeup factor `k` times the
      delayed band `d`. */
  predicate WithinMakeup(out: Bands, d: Bands, k: Bands)
  {
    Abs(out.high) <= Abs(k.high) * Abs(d.high) && Abs(out.low) <= Abs(k.low) * Abs(d.low)
  }

  /** A channel whose bands are the delayed bands `d` scaled by gains in
      (0, 1] and by the makeup factors `k` is within makeup. */
  lemma ChannelWithinMakeup(out: Bands, d: Bands, g: Bands, k: Bands)
    requires 0.0 < g.high <= 1.0 && 0.0 < g.low <= 1.0
    requires out == Bands(d.high * g.high * k.high, d.low * g.low * k.low)
    ensures WithinMakeup(out, d, k)
  {
    ScaledWithin(out.high, d.high, g.high, k.high);
    ScaledWithin(out.low, d.low, g.low, k.low);
  }

  /** With every gain in (0, 1], each output band is at most its makeup
      factor times the delayed band. */
  lemma MixWithinMakeup(delayed: Quad, g: Quad, s: Settings)
    requires 0.0 < g.left.high <= 1.0 && 0.0 < g.left.low <= 1.0
    requires 0.0 < g.right.high <= 1.0 && 0.0 < g.right.low <= 1.0
    ensures WithinMakeup(Mix(delayed, g, s).left, delayed.left, s.makeup)
    ensures WithinMakeup(Mix(delayed, g, s).right, delayed.right, s.makeup)
  {
    var m := Mix(delayed, g, s);
    ChannelWithinMakeup(m.left, delayed.left, g.left, s.makeup);
    ChannelWithinMakeup(m.right, delayed.right, g.right, s.makeup);
  }

  lemma TriangleOfFour(a: real, b: real, c: real, d: real)
    ensures Abs(a + b + c + d) <= Abs(a) + Abs(b) + Abs(c) + Abs(d)
  {
  }

  /** Four times the mono mix is at most the sum of the four output bands'
      magnitudes. */
  lemma MonoMixWithinBands(delayed: Quad, g: Quad, s: Settings)
    ensures var m := Mix(delayed, g, s);
      4.0 * Abs(m.monoMix) <= Abs(m.left.high) + Abs(m.left.low) + Abs(m.right.high) + Abs(m.right.low)
  {
    var m := Mix(delayed, g, s);
    MonoMixIsMeanOfStereo(delayed, g, s);
    assert 4.0 * m.monoMix == m.left.high + m.left.low + m.right.high + m.right.low;
    TriangleOfFour(m.left.high, m.left.low, m.right.high, m.right.low);
  }

  /** For a monotone 10^x and both ratios at least 1 the compressor never
      amplifies beyond makeup: each output band is at most its makeup factor
      times the delayed band, and the mono mix at most the mean of those
      bounds. */
  lemma NeverBeyondMakeup(lib: Lib, delayed: Quad, levels: Quad, s: Settings)
    requires lib.Sane() && lib.Monotone() && s.ratio.high >= 1.0 && s.ratio.low >= 1.0
    ensures WithinMakeup(CompressAll(lib, delayed, levels, s).left, delayed.left, s.makeup)
    ensures WithinMakeup(CompressAll(lib, delayed, levels, s).right, delayed.right, s.makeup)
    ensures 4.0 * Abs(CompressAll(lib, delayed, levels, s).monoMix) <=
      Abs(s.makeup.high) * Abs(delayed.left.high) + Abs(s.makeup.low) * Abs(delayed.left.low) +
      Abs(s.makeup.high) * Abs(delayed.right.high) + Abs(s.makeup.low) * Abs(delayed.right.low)
  {
    var m := CompressAll(lib, delayed, levels, s);
    TotalCompressionInUnitInterval(lib, delayed, levels, s);
    MixWithinMakeup(delayed, m.comp, s);
    MonoMixWithinBands(delayed, m.comp, s);
  }

  /** Silent delayed bands give silent outputs, whatever the levels. */
  lemma SilenceStaysSilent(lib: Lib, levels: Quad, s: Settings)
    requires lib.Sane()
    ensures var m := CompressAll(lib, Quad(Bands(0.0, 0.0), Bands(0.0, 0.0)), levels, s);
      m.left == Bands(0.0, 0.0) && m.right == Bands(0.0, 0.0) && m.monoMix == 0.0
  {
  }

  /** With every level at or below 0 the gains are exactly 1 and the outputs
      are the delayed bands scaled by the makeup factors alone. */
  lemma ZeroLevelsGiveMakeupOnly(lib: Lib, delayed: Quad, levels: Quad, s: Settings)
    requires lib.Sane()
    requires levels.left.high <= 0.0 && levels.left.low <= 0.0
    requires levels.right.high <= 0.0 && levels.right.low <= 0.0
    ensures var m := CompressAll(lib, delayed, levels, s);
      m.total == 1.0 &&
      m.left == Bands(delayed.left.high * s.makeup.high, delayed.left.low * s.makeup.low) &&
      m.right == Bands(delayed.right.high * s.makeup.high, delayed.right.low * s.makeup.low)
  {
  }

  // ---------------------------------------------------------------------
  // The phases of one sample
  // ---------------------------------------------------------------------

  /** `setCutoff(centre)` on all four filters, then `hpf[x].tick(-in[x])` and
      `lpf[x].tick(in[x])`; nothing else changes. */
  function FilterPhase(lib: Lib, st: EffectState, centre: real, in0: real, in1: real): (r: EffectState)
    ensures r.filters == Filters(st.filters.high0 + [(centre, -in0)], st.filters.high1 + [(centre, -in1)],
                                 st.filters.low0 + [(centre, in0)], st.filters.low1 + [(centre, in1)])
    ensures r.band == Quad(Bands(lib.highPass(r.filters.high0), lib.lowPass(r.filters.low0)),
                           Bands(lib.highPass(r.filters.high1), lib.lowPass(r.filters.low1)))
    ensures r == st.(filters := r.filters, band := r.band)
  {
    var f := st.filters;
    var f' := Filters(f.high0 + [(centre, in0 * -1.0)], f.high1 + [(centre, in1 * -1.0)],
                      f.low0 + [(centre, in0)], f.low1 + [(centre, in1)]);
    st.(filters := f', band := Quad(Bands(lib.highPass(f'.high0), lib.lowPass(f'.low0)),
                                    Bands(lib.highPass(f'.high1), lib.lowPass(f'.low1))))
  }

  /** The mono meters: each channel's raw input through its own-index peak
      and RMS detector with the fixed coefficients 0.1 and 0.0003, averaged
      over the channels. */
  function MonoDetect(lib: Lib, d: Detectors, in0: real, in1: real): (r: (Detectors, real, real))
    requires lib.Sane()
    ensures r.1 == (PeakStep(lib, d.peak0, in0, 0.1, 0.0003).1 + PeakStep(lib, d.peak1, in1, 0.1, 0.0003).1) / 2.0
    ensures r.2 == (RmsStep(lib, d.rms0, in0, 0.1, 0.0003).1 + RmsStep(lib, d.rms1, in1, 0.1, 0.0003).1) / 2.0
  {
    var p0 := PeakStep(lib, d.peak0, in0, 0.1, 0.0003);
    var p1 := PeakStep(lib, d.peak1, in1, 0.1, 0.0003);
    var r0 := RmsStep(lib, d.rms0, in0, 0.1, 0.0003);
    var r1 := RmsStep(lib, d.rms1, in1, 0.1, 0.0003);
    (Detectors(p0.0, p1.0, r0.0, r1.0), (p0.1 + p1.1) / 2.0, (r0.1 + r1.1) / 2.0)
  }

  /** The mono meter phase on the whole state: only the detectors and the two
      readings change. */
  function MonoPhase(lib: Lib, st: EffectState, in0: real, in1: real): EffectState
    requires lib.Sane()
  {
    var m := MonoDetect(lib, st.det, in0, in1);
    st.(det := m.0, monoPeak := m.1, monoRms := m.2)
  }

  /** The four `delay` calls, in the order left high, left low, right high,
      right low, all on the same buffer and write position. */
  function DelayCalls(cells: seq<real>, w: int, band: Quad, off: real): (r: (seq<real>, int, Quad))
    requires 0 <= w < |cells| && 0.0 <= off <= |cells| as real
    ensures |r.0| == |cells| && 0 <= r.1 < |cells|
    ensures r.1 == Next(Next(Next(Next(w, |cells|), |cells|), |cells|), |cells|)
  {
    var a := DelayStep(cells, w, band.left.high, off);
    var b := DelayStep(a.0, a.1, band.left.low, off);
    var c := DelayStep(b.0, b.1, band.right.high, off);
    var d := DelayStep(c.0, c.1, band.right.low, off);
    (d.0, d.1, Quad(Bands(a.2, b.2), Bands(c.2, d.2)))
  }

  /** The delay of the current bands: only the buffer and the write position
      change; the second component is the delayed bands. */
  function DelayPhase(st: EffectState, off: real): (r: (EffectState, Quad))
    requires 0 <= st.writePos < |st.cells| && 0.0 <= off <= |st.cells| as real
    ensures |r.0.cells| == |st.cells| && 0 <= r.0.writePos < |st.cells|
    ensures r.0 == st.(cells := r.0.cells, writePos := r.0.writePos)
  {
    var dc := DelayCalls(st.cells, st.writePos, st.band, off);
    (st.(cells := dc.0, writePos := dc.1), dc.2)
  }

  /** Band levels: for each channel in turn, band i through `peak[i]` and
      then `rms[i]`, with the block's attack and release; the other
      components are the peak and the RMS levels. */
  function LevelDetect(lib: Lib, d: Detectors, band: Quad, attack: real, release: real): (r: (Detectors, Quad, Quad))
    requires lib.Sane()
  {
    var pLH := PeakStep(lib, d.peak0, band.left.high, attack, release);
    var rLH := RmsStep(lib, d.rms0, band.left.high, attack, release);
    var pLL := PeakStep(lib, d.peak1, band.left.low, attack, release);
    var rLL := RmsStep(lib, d.rms1, band.left.low, attack, release);
    var pRH := PeakStep(lib, pLH.0, band.right.high, attack, release);
    var rRH := RmsStep(lib, rLH.0, band.right.high, attack, release);
    var pRL := PeakStep(lib, pLL.0, band.right.low, attack, release);
    var rRL := RmsStep(lib, rLL.0, band.right.low, attack, release);
    (Detectors(pRH.0, pRL.0, rRH.0, rRL.0),
     Quad(Bands(pLH.1, pLL.1), Bands(pRH.1, pRL.1)),
     Quad(Bands(rLH.1, rLL.1), Bands(rRH.1, rRL.1)))
  }

  /** The band level phase on the whole state: only the detectors change. */
  function LevelPhase(lib: Lib, st: EffectState, attack: real, release: real): (EffectState, Quad, Quad)
    requires lib.Sane()
  {
    var l := LevelDetect(lib, st.det, st.band, attack, release);
    (st.(det := l.0), l.1, l.2)
  }

  /** A state one sample step can run on: 16 parameters, a non-empty buffer
      with the write position inside it, and a read offset of at most the
      buffer size (otherwise the code reads outside the buffer). */
  predicate SampleReady(s: Settings, sr: real, st: EffectState)
  {
    |st.params| == NumberOfParameters &&
    1 <= |st.cells| && 0 <= st.writePos < |st.cells| &&
    0.0 <= Offset(s.lookahead, sr) <= |st.cells| as real
  }

  /** The meter writes and the mix of one sample for a detect mode value;
      only the parameters and the mix members change. */
  function MeterAndMix(lib: Lib, s: Settings, st: EffectState, delayed: Quad,
                       peakLevels: Quad, rmsLevels: Quad): (r: EffectState)
    requires lib.Sane() && |st.params| == NumberOfParameters
    ensures |r.params| == NumberOfParameters
    ensures s.compType == 0.0 ==> (r.mix == CompressAll(lib, delayed, peakLevels, s) &&
      r.params == st.params[RmsMeterParam := 0.0][PeakMeterParam := st.monoPeak][CompMeterParam := r.mix.total])
    ensures s.compType == 1.0 ==> (r.mix == CompressAll(lib, delayed, rmsLevels, s) &&
      r.params == st.params[PeakMeterParam := 0.0][RmsMeterParam := st.monoRms][CompMeterParam := r.mix.total])
    ensures s.compType != 0.0 && s.compType != 1.0 ==> r == st
    ensures r == st.(params := r.params, mix := r.mix)
  {
    if s.compType == 0.0 then
      var m := CompressAll(lib, delayed, peakLevels, s);
      st.(params := st.params[5 := 0.0][4 := st.monoPeak][6 := m.total], mix := m)
    else if s.compType == 1.0 then
      var m := CompressAll(lib, delayed, rmsLevels, s);
      st.(params := st.params[4 := 0.0][5 := st.monoRms][6 := m.total], mix := m)
    else st
  }

  /** The body of the `while (numSamples--)` loop of `process`: the new
      state and what is written to the two outputs. */
  function SampleStep(lib: Lib, s: Settings, sr: real, st: EffectState, in0: real, in1: real): (r: (EffectState, Option<(real, real)>))
    requires lib.Sane() && SampleReady(s, sr, st)
    ensures SampleReady(s, sr, r.0) && |r.0.cells| == |st.cells|
    ensures r.1 == SelectOutput(s.mono, r.0.mix.left, r.0.mix.right, r.0.mix.monoMix)
    ensures s.compType != 0.0 && s.compType != 1.0 ==> r.0.params == st.params && r.0.mix == st.mix
  {
    var st1 := FilterPhase(lib, st, s.centre, in0, in1);
    var st2 := MonoPhase(lib, st1, in0, in1);
    var dp := DelayPhase(st2, Offset(s.lookahead, sr));
    var lp := LevelPhase(lib, dp.0, s.attack, s.release);
    var st' := MeterAndMix(lib, s, lp.0, dp.1, lp.1, lp.2);
    (st', SelectOutput(s.mono, st'.mix.left, st'.mix.right, st'.mix.monoMix))
  }

  function Written(o: Option<(real, real)>): seq<(real, real)>
  {
    if o.Some? then [o.value] else []
  }

  /** Both channels of every written pair are the same sample. */
  predicate DualMono(outs: seq<(real, real)>)
  {
    forall k :: 0 <= k < |outs| ==> outs[k].0 == outs[k].1
  }

  lemma DualMonoSnoc(outs: seq<(real, real)>, o: Option<(real, real)>)
    ensures DualMono(outs) && (o.Some? ==> o.value.0 == o.value.1) ==> DualMono(outs + Written(o))
  {
  }

  /** The first n samples of a block, one after another; the second
      component is the sequence of output pairs actually written. */
  function Run(lib: Lib, s: Settings, sr: real, st: EffectState, in0: seq<real>, in1: seq<real>, n: nat)
    : (r: (EffectState, seq<(real, real)>))
    requires lib.Sane() && SampleReady(s, sr, st) && n <= |in0| && n <= |in1|
    ensures SampleReady(s, sr, r.0) && |r.0.cells| == |st.cells| && |r.1| <= n
    ensures s.mono != 0.0 && s.mono != 1.0 ==> r.1 == []
    ensures s.mono == 0.0 || s.mono == 1.0 ==> |r.1| == n
    ensures s.mono == 1.0 ==> DualMono(r.1)
  {
    if n == 0 then (st, [])
    else
      var prev := Run(lib, s, sr, st, in0, in1, n - 1);
      var step := SampleStep(lib, s, sr, prev.0, in0[n - 1], in1[n - 1]);
      DualMonoSnoc(prev.1, step.1);
      (step.0, prev.1 + Written(step.1))
  }

  /** A sample step passed around as a value. */
  type StepFn = (EffectState, real, real) -> (EffectState, Option<(real, real)>)

  /** f agrees with the sample step on every state a step can run on. */
  ghost predicate StepsAs(f: StepFn, lib: Lib, s: Settings, sr: real)
  {
    forall st: EffectState, a: real, b: real {:trigger SampleStep(lib, s, sr, st, a, b)} ::
      lib.Sane() && SampleReady(s, sr, st) ==> f(st, a, b) == SampleStep(lib, s, sr, st, a, b)
  }

  /** `Run` with the sample step given as the value f.  The block loop is
      proved against this form, in which a step is not unfolded. */
  function RunWith(f: StepFn, lib: Lib, s: Settings, sr: real, st: EffectState, in0: seq<real>, in1: seq<real>,
                   n: nat): (r: (EffectState, seq<(real, real)>))
    requires StepsAs(f, lib, s, sr) && lib.Sane() && SampleReady(s, sr, st) && n <= |in0| && n <= |in1|
    ensures SampleReady(s, sr, r.0) && |r.0.cells| == |st.cells| && |r.1| <= n
  {
    if n == 0 then (st, [])
    else
      var prev := RunWith(f, lib, s, sr, st, in0, in1, n - 1);
      var step := f(prev.0, in0[n - 1], in1[n - 1]);
      assert step == SampleStep(lib, s, sr, prev.0, in0[n - 1], in1[n - 1]);
      (step.0, prev.1 + Written(step.1))
  }

  /** What a block run proved against `RunWith` says about `Run`: the state
      `cur` and the outputs z0, z1 after n samples. */
  lemma BlockIsRun(f: StepFn, lib: Lib, s: Settings, sr: real, st0: EffectState, x0: seq<real>, x1: seq<real>,
                   y0: seq<real>, y1: seq<real>, n: nat, cur: EffectState, z0: seq<real>, z1: seq<real>)
    requires StepsAs(f, lib, s, sr) && lib.Sane() && SampleReady(s, sr, st0) && n <= |x0| && n <= |x1|
    requires n <= |y0| && n <= |y1|
    requires var r := RunWith(f, lib, s, sr, st0, x0, x1, n);
      cur == r.0 && z0 == Overwrite(y0, Lefts(r.1)) && z1 == Overwrite(y1, Rights(r.1))
    ensures var r := Run(lib, s, sr, st0, x0, x1, n);
      cur == r.0 && z0 == Overwrite(y0, Lefts(r.1)) && z1 == Overwrite(y1, Rights(r.1))
  {
    RunWithIsRun(f, lib, s, sr, st0, x0, x1, n);
  }

  /** The sample step under the settings s at the rate sr exists as a
      value (a lemma, so that callers see only `StepsAs`). */
  lemma StepAsValue(lib: Lib, s: Settings, sr: real) returns (f: StepFn)
    ensures StepsAs(f, lib, s, sr)
  {
    f := (st: EffectState, a: real, b: real) =>
      if lib.Sane() && SampleReady(s, sr, st) then SampleStep(lib, s, sr, st, a, b) else (st, None);
  }

  lemma {:induction false} RunWithIsRun(f: StepFn, lib: Lib, s: Settings, sr: real, st: EffectState,
                                        in0: seq<real>, in1: seq<real>, n: nat)
    requires StepsAs(f, lib, s, sr) && lib.Sane() && SampleReady(s, sr, st) && n <= |in0| && n <= |in1|
    ensures RunWith(f, lib, s, sr, st, in0, in1, n) == Run(lib, s, sr, st, in0, in1, n)
    decreases n
  {
    if n > 0 {
      RunWithIsRun(f, lib, s, sr, st, in0, in1, n - 1);
      var prev := Run(lib, s, sr, st, in0, in1, n - 1);
      assert f(prev.0, in0[n - 1], in1[n - 1]) == SampleStep(lib, s, sr, prev.0, in0[n - 1], in1[n - 1]);
    }
  }

  // ---------------------------------------------------------------------
  // Storing the output pairs
  // ---------------------------------------------------------------------

  /** The left samples of the written pairs. */
  function Lefts(outs: seq<(real, real)>): (r: seq<real>)
    ensures |r| == |outs|
  {
    if outs == [] then [] else Lefts(outs[..|outs| - 1]) + [outs[|outs| - 1].0]
  }

  /** The right samples of the written pairs. */
  function Rights(outs: seq<(real, real)>): (r: seq<real>)
    ensures |r| == |outs|
  {
    if outs == [] then [] else Rights(outs[..|outs| - 1]) + [outs[|outs| - 1].1]
  }

  /** A buffer `a` after the samples w were written to it one after another
      from its start. */
  function Overwrite(a: seq<real>, w: seq<real>): (r: seq<real>)
    requires |w| <= |a|
    ensures |r| == |a|
  {
    w + a[|w|..]
  }

  /** Cell j of an overwritten buffer holds the j-th written sample, or its
      old content past the written ones. */
  lemma OverwriteCell(a: seq<real>, outs: seq<(real, real)>, j: int)
    requires |outs| <= |a| && 0 <= j < |a|
    ensures Overwrite(a, Lefts(outs))[j] == if j < |outs| then outs[j].0 else a[j]
    ensures Overwrite(a, Rights(outs))[j] == if j < |outs| then outs[j].1 else a[j]
  {
    var l, r := Lefts(outs), Rights(outs);
    assert Overwrite(a, l) == l + a[|l|..] && Overwrite(a, r) == r + a[|r|..];
    if j < |outs| {
      LeftsRightsCell(outs, j);
      assert (l + a[|l|..])[j] == l[j] && (r + a[|r|..])[j] == r[j];
    } else {
      assert (l + a[|l|..])[j] == a[|l|..][j - |l|] && (r + a[|r|..])[j] == a[|r|..][j - |r|];
    }
  }

  lemma {:induction false} LeftsRightsCell(outs: seq<(real, real)>, j: int)
    requires 0 <= j < |outs|
    ensures Lefts(outs)[j] == outs[j].0 && Rights(outs)[j] == outs[j].1
    decreases |outs|
  {
    if j < |outs| - 1 {
      LeftsRightsCell(outs[..|outs| - 1], j);
    }
  }

  lemma OverwriteAppend(a: seq<real>, w: seq<real>, v: real)
    requires |w| < |a|
    ensures Overwrite(a, w + [v]) == Overwrite(a, w)[|w| := v]
  {
    var l := Overwrite(a, w + [v]);
    var r := Overwrite(a, w)[|w| := v];
    forall j | 0 <= j < |a|
      ensures l[j] == r[j]
    {
      if j < |w| {
        assert l[j] == (w + [v])[j] == w[j];
      } else if j > |w| {
        assert l[j] == a[j];
      }
    }
  }

  /** Writing one more pair at the next position extends both channels. */
  lemma OverwriteSnoc(y0: seq<real>, y1: seq<real>, outs: seq<(real, real)>, o: Option<(real, real)>)
    requires |outs| + |Written(o)| <= |y0| && |outs| + |Written(o)| <= |y1|
    ensures o.Some? ==> Overwrite(y0, Lefts(outs + Written(o))) == Overwrite(y0, Lefts(outs))[|outs| := o.value.0]
    ensures o.Some? ==> Overwrite(y1, Rights(outs + Written(o))) == Overwrite(y1, Rights(outs))[|outs| := o.value.1]
    ensures o.None? ==> outs + Written(o) == outs
  {
    if o.Some? {
      var outs' := outs + [o.value];
      assert outs'[..|outs'| - 1] == outs;
      OverwriteAppend(y0, Lefts(outs), o.value.0);
      OverwriteAppend(y1, Rights(outs), o.value.1);
    }
  }

  /** The stores at the end of one pass of the sample loop: a written pair
      goes to the current positions of the two outputs, which then advance. */
  method StoreOutput(outputs0: array<real>, outputs1: array<real>, pos: int, o: Option<(real, real)>)
    returns (next: int)
    requires outputs0 != outputs1 && 0 <= pos
    requires o.Some? ==> pos < outputs0.Length && pos < outputs1.Length
    modifies outputs0, outputs1
    ensures next == pos + |Written(o)|
    ensures o.Some? ==> outputs0[..] == old(outputs0[..])[pos := o.value.0] &&
                        outputs1[..] == old(outputs1[..])[pos := o.value.1]
    ensures o.None? ==> outputs0[..] == old(outputs0[..]) && outputs1[..] == old(outputs1[..])
  {
    next := pos;
    if o.Some? {
      outputs0[next] := o.value.0;
      outputs1[next] := o.value.1;
      next := next + 1;
    }
  }

  /** `StoreOutput` on buffers overwritten from their start by the pairs
      `outs`: afterwards they are overwritten by `outs` and the new pair. */
  method StoreWritten(outputs0: array<real>, outputs1: array<real>, ghost y0: seq<real>, ghost y1: seq<real>,
                      pos: int, ghost outs: seq<(real, real)>, o: Option<(real, real)>)
    returns (next: int, ghost outs': seq<(real, real)>)
    requires outputs0 != outputs1 && pos == |outs| && |outs| < |y0| && |outs| < |y1|
    requires outputs0[..] == Overwrite(y0, Lefts(outs)) && outputs1[..] == Overwrite(y1, Rights(outs))
    modifies outputs0, outputs1
    ensures outs' == outs + Written(o) && next == |outs'|
    ensures outputs0[..] == Overwrite(y0, Lefts(outs')) && outputs1[..] == Overwrite(y1, Rights(outs'))
  {
    OverwriteSnoc(y0, y1, outs, o);
    next := StoreOutput(outputs0, outputs1, pos, o);
    outs' := outs + Written(o);
  }

  // ---------------------------------------------------------------------
  // The delay across one sample
  // ---------------------------------------------------------------------

  /** The four delay inputs of one sample, in call order. */
  function Slots(q: Quad): seq<real>
  {
    [q.left.high, q.left.low, q.right.high, q.right.low]
  }

  /** The delay inputs of a run of samples, in call order. */
  function Flatten(qs: seq<Quad>): (r: seq<real>)
    ensures |r| == 4 * |qs|
  {
    if qs == [] then [] else Flatten(qs[..|qs| - 1]) + Slots(qs[|qs| - 1])
  }

  lemma {:induction false} FlattenIndex(qs: seq<Quad>, i: int, k: int)
    requires 0 <= i < |qs| && 0 <= k < 4
    ensures Flatten(qs)[4 * i + k] == Slots(qs[i])[k]
    decreases |qs|
  {
    if i < |qs| - 1 {
      FlattenIndex(qs[..|qs| - 1], i, k);
    }
  }

  lemma FlattenSnoc(qs: seq<Quad>, q: Quad)
    ensures Flatten(qs + [q]) == Flatten(qs) + Slots(q)
  {
    assert (qs + [q])[..|qs|] == qs;
  }

  /** The four delays of one sample keep the ring invariant over the
      flattened input history and advance the write position by four calls;
      with a whole offset D < n each delayed band is the input of the call D
      calls before its own. */
  lemma DelayCallsKeepRing(h: seq<real>, n: int, band: Quad, off: real)
    requires n >= 1 && 0.0 <= off <= n as real
    ensures var r := DelayCalls(RingOf(h, n), Pos(|h|, n), band, off);
      r.0 == RingOf(h + Slots(band), n) && r.1 == Pos(|h| + 4, n) &&
      (off == off.Floor as real && off < n as real ==>
        r.2.left.high == Past(h + Slots(band)[..1], off.Floor) &&
        r.2.left.low == Past(h + Slots(band)[..2], off.Floor) &&
        r.2.right.high == Past(h + Slots(band)[..3], off.Floor) &&
        r.2.right.low == Past(h + Slots(band), off.Floor))
  {
    var sl := Slots(band);
    var h1 := h + [band.left.high];
    var h2 := h1 + [band.left.low];
    var h3 := h2 + [band.right.high];
    var h4 := h3 + [band.right.low];
    assert h1 == h + sl[..1] && h2 == h + sl[..2] && h3 == h + sl[..3] && h4 == h + sl;
    var a := DelayStep(RingOf(h, n), Pos(|h|, n), band.left.high, off);
    DelayStepKeepsRing(h, n, band.left.high, off);
    var b := DelayStep(a.0, a.1, band.left.low, off);
    DelayStepKeepsRing(h1, n, band.left.low, off);
    var c := DelayStep(b.0, b.1, band.right.high, off);
    DelayStepKeepsRing(h2, n, band.right.high, off);
    var d := DelayStep(c.0, c.1, band.right.low, off);
    DelayStepKeepsRing(h3, n, band.right.low, off);
    assert DelayCalls(RingOf(h, n), Pos(|h|, n), band, off) == (d.0, d.1, Quad(Bands(a.2, b.2), Bands(c.2, d.2)));
  }

  /** What `delay` really returns for a whole offset of D calls.  With
      `prev` the bands of the earlier samples and `cur` the current one, the
      delay output for call slot k (0 left high, 1 left low, 2 right high,
      3 right low) is the signal of slot (4t + k - D) % 4 of sample
      (4t + k - D) / 4, where t = |prev|.  So the lookahead is D/4 samples,
      not D, and when D is not a multiple of 4 each band receives another
      band's (or the other channel's) signal. */
  lemma {:induction false} DelayedSlot(prev: seq<Quad>, cur: Quad, k: int, D: int)
    requires 0 <= k < 4 && 0 <= D <= 4 * |prev| + k
    ensures var all := prev + [cur];
      var j := 4 * |prev| + k - D;
      Past(Flatten(prev) + Slots(cur)[..k + 1], D) == Slots(all[j / 4])[j % 4]
  {
    var all := prev + [cur];
    var j := 4 * |prev| + k - D;
    FlattenSnoc(prev, cur);
    var calls := Flatten(prev) + Slots(cur)[..k + 1];
    assert calls == Flatten(all)[..4 * |prev| + k + 1];
    FlattenIndex(all, j / 4, j % 4);
  }

  /** A whole offset that is a multiple of 4 calls delays every band by
      D / 4 samples of its own signal. */
  lemma DelayMultipleOfFour(prev: seq<Quad>, cur: Quad, k: int, m: int)
    requires 0 <= k < 4 && 0 <= m <= |prev|
    ensures Past(Flatten(prev) + Slots(cur)[..k + 1], 4 * m) == Slots((prev + [cur])[|prev| - m])[k]
  {
    DelayedSlot(prev, cur, k, 4 * m);
    var j := 4 * |prev| + k - 4 * m;
    assert j / 4 == |prev| - m && j % 4 == k;
  }

  /** The lookahead of 10 ms at 44.1 kHz is 441 calls: the delayed left high
      band is the right low band of 111 samples earlier. */
  lemma TenMillisecondsAt44100(prev: seq<Quad>, cur: Quad)
    requires |prev| >= 111
    ensures Quantise(0.01) * 44100.0 == 441.0
    ensures Past(Flatten(prev) + Slots(cur)[..1], 441) == (prev + [cur])[|prev| - 111].right.low
  {
    assert TruncToInt(0.01 * 100.0) == 1;
    DelayedSlot(prev, cur, 0, 441);
    var j := 4 * |prev| - 441;
    assert j / 4 == |prev| - 111 && j % 4 == 3;
  }

  // ---------------------------------------------------------------------
  // The effect object
  // ---------------------------------------------------------------------

  /** The two `new float[iBufferSize]` of `initialise` and the loop that
      zeroes them side by side. */
  method NewZeroedBuffers(size: nat) returns (buffer0: array<real>, buffer1: array<real>)
    ensures fresh(buffer0) && fresh(buffer1)
    ensures buffer0.Length == size && buffer1.Length == size
    ensures buffer0[..] == Zeros(size) && buffer1[..] == Zeros(size)
  {
    buffer0 := new real[size];
    buffer1 := new real[size];
    var iPos := 0;
    while iPos < size
      invariant 0 <= iPos <= size
      invariant forall i :: 0 <= i < iPos ==> buffer0[i] == 0.0 && buffer1[i] == 0.0
    {
      buffer0[iPos] := 0.0;
      buffer1[iPos] := 0.0;
      iPos := iPos + 1;
    }
    assert buffer0[..] == Zeros(size);
    assert buffer1[..] == Zeros(size);
  }

  /** The four detector objects of the effect: distinct, valid and on the
      library `lib`. */
  ghost predicate DetectorsReady(lib: Lib, p0: Peak, p1: Peak, r0: RMS, r1: RMS)
    reads p0, p1, r0, r1
  {
    lib.Sane() && p0 != p1 && r0 != r1 &&
    p0.lib == lib && p1.lib == lib && r0.lib == lib && r1.lib == lib &&
    p0.Valid() && p1.Valid() && r0.Valid() && r1.Valid()
  }

  function DetectorStates(p0: Peak, p1: Peak, r0: RMS, r1: RMS): Detectors
    reads p0, p1, r0, r1
  {
    Detectors(p0.State(), p1.State(), r0.State(), r1.State())
  }

  /** The detector part of `initialise`: peak windows of `length` samples,
      RMS sums and counters cleared. */
  method InitialiseDetectors(lib: Lib, p0: Peak, p1: Peak, r0: RMS, r1: RMS, length: int)
    requires lib.Sane() && p0 != p1 && r0 != r1 && p0.Wired() && p1.Wired()
    requires p0.lib == lib && p1.lib == lib && r0.lib == lib && r1.lib == lib
    modifies p0, p1, r0, r1
    ensures DetectorsReady(lib, p0, p1, r0, r1)
    ensures p0.State() == PeakState(length, 0, 0.0, 0.0, 0.0) && p1.State() == PeakState(length, 0, 0.0, 0.0, 0.0)
    ensures r0.State() == RmsState(0, 0.0, old(r0.oldSum), old(r0.newSum))
    ensures r1.State() == RmsState(0, 0.0, old(r1.oldSum), old(r1.newSum))
  {
    p0.Initialise(length);
    p1.Initialise(length);
    r0.Initialise();
    r1.Initialise();
  }

  /** The detector calls for the mono meters: `peak[x]` and `rms[x]` on the
      raw input of channel x, with the readings averaged. */
  method DetectMono(lib: Lib, p0: Peak, p1: Peak, r0: RMS, r1: RMS, in0: real, in1: real)
    returns (fMonoPeak: real, fMonoRms: real)
    requires DetectorsReady(lib, p0, p1, r0, r1)
    modifies p0, p1, r0, r1
    ensures DetectorsReady(lib, p0, p1, r0, r1)
    ensures DetectorStates(p0, p1, r0, r1) == MonoDetect(lib, old(DetectorStates(p0, p1, r0, r1)), in0, in1).0
    ensures fMonoPeak == MonoDetect(lib, old(DetectorStates(p0, p1, r0, r1)), in0, in1).1
    ensures fMonoRms == MonoDetect(lib, old(DetectorStates(p0, p1, r0, r1)), in0, in1).2
  {
    var pk0 := p0.Process(in0, 0.1, 0.0003);
    var pk1 := p1.Process(in1, 0.1, 0.0003);
    fMonoPeak := (pk0 + pk1) / 2.0;
    var rm0 := r0.Process(in0, 0.1, 0.0003);
    var rm1 := r1.Process(in1, 0.1, 0.0003);
    fMonoRms := (rm0 + rm1) / 2.0;
  }

  /** The detector calls for the band levels: for each channel, band i
      through `peak[i]` and then `rms[i]`. */
  method DetectLevels(lib: Lib, p0: Peak, p1: Peak, r0: RMS, r1: RMS, fBand: Quad, attack: real, release: real)
    returns (fBandPeakLevel: Quad, fBandRms: Quad)
    requires DetectorsReady(lib, p0, p1, r0, r1)
    modifies p0, p1, r0, r1
    ensures DetectorsReady(lib, p0, p1, r0, r1)
    ensures DetectorStates(p0, p1, r0, r1) == LevelDetect(lib, old(DetectorStates(p0, p1, r0, r1)), fBand, attack, release).0
    ensures fBandPeakLevel == LevelDetect(lib, old(DetectorStates(p0, p1, r0, r1)), fBand, attack, release).1
    ensures fBandRms == LevelDetect(lib, old(DetectorStates(p0, p1, r0, r1)), fBand, attack, release).2
  {
    var pLH := p0.Process(fBand.left.high, attack, release);
    var rLH := r0.Process(fBand.left.high, attack, release);
    var pLL := p1.Process(fBand.left.low, attack, release);
    var rLL := r1.Process(fBand.left.low, attack, release);
    var pRH := p0.Process(fBand.right.high, attack, release);
    var rRH := r0.Process(fBand.right.high, attack, release);
    var pRL := p1.Process(fBand.right.low, attack, release);
    var rRL := r1.Process(fBand.right.low, attack, release);
    fBandPeakLevel := Quad(Bands(pLH, pLL), Bands(pRH, pRL));
    fBandRms := Quad(Bands(rLH, rLL), Bands(rRH, rRL));
  }

  class MyEffect {
    const lib: Lib
    /** The inherited `PluginParameters<kNumberOfParameters>` part. */
    const params: ParameterStore
    const peak0: Peak
    const peak1: Peak
    const rms0: RMS
    const rms1: RMS
    /** The four STK filter objects `hpf[0]`, `hpf[1]`, `lpf[0]`, `lpf[1]`,
        each as the history of its ticks. */
    var filters: Filters
    var fComp: Quad
    var fCombinedSignal: Quad
    var fBand: Quad
    var fLeftComp: Bands
    var fRightComp: Bands
    var fCompType: real
    var fMonoPeak: real
    var fMonoRms: real
    var fCompMonoMix: real
    var fTotalCompression: real
    var kneeWidth: real
    var fLookahead: real
    var fSR: real
    var pfCircularBuffer0: array<real>
    var pfCircularBuffer1: array<real>
    var iBufferSize: int
    var iBufferWritePos: int
    var fRelease: real
    /** Every input passed to `delay` since `initialise`. */
    ghost var delayInputs: seq<real>

    /** The objects are distinct and share one set of library functions. */
    ghost predicate Wired()
    {
      lib.Sane() && peak0 != peak1 && rms0 != rms1 && peak0.Wired() && peak1.Wired() &&
      peak0.lib == lib && peak1.lib == lib && rms0.lib == lib && rms1.lib == lib
    }

    ghost predicate Valid()
      reads this`pfCircularBuffer0, this`iBufferSize, this`iBufferWritePos, this`delayInputs
      reads params, peak0, peak1, rms0, rms1, pfCircularBuffer0
    {
      Wired() &&
      params.Valid() && params.count == NumberOfParameters && DetectorsValid() &&
      params.values != pfCircularBuffer0 && RingValid()
    }

    /** The first buffer holds the ring of every delay input so far, and the
        write position is where the last of them went. */
    ghost predicate RingValid()
      reads this`pfCircularBuffer0, this`iBufferSize, this`iBufferWritePos, this`delayInputs
      reads pfCircularBuffer0
    {
      pfCircularBuffer0.Length == iBufferSize &&
      (iBufferSize >= 1 ==>
        iBufferWritePos == Pos(|delayInputs|, iBufferSize) &&
        pfCircularBuffer0[..] == RingOf(delayInputs, iBufferSize))
    }

    ghost predicate DetectorsValid()
      reads peak0, peak1, rms0, rms1
    {
      DetectorsReady(lib, peak0, peak1, rms0, rms1)
    }

    function Dets(): Detectors
      reads peak0, peak1, rms0, rms1
    {
      DetectorStates(peak0, peak1, rms0, rms1)
    }

    function Histories(): Filters
      reads this`filters
    {
      filters
    }

    function State(): EffectState
      reads this`filters, this`pfCircularBuffer0, this`iBufferWritePos
      reads this`fBand, this`fMonoPeak, this`fMonoRms, this`fComp, this`fCombinedSignal
      reads this`fLeftComp, this`fRightComp, this`fCompMonoMix, this`fTotalCompression
      reads params.values, peak0, peak1, rms0, rms1, pfCircularBuffer0
    {
      EffectState(
        params.values[..],
        Dets(),
        Histories(),
        pfCircularBuffer0[..],
        iBufferWritePos,
        fBand,
        fMonoPeak,
        fMonoRms,
        Mix())
    }

    function Mix(): MixResult
      reads this`fComp, this`fCombinedSignal, this`fLeftComp, this`fRightComp, this`fCompMonoMix, this`fTotalCompression
    {
      MixResult(fComp, fCombinedSignal, fLeftComp, fRightComp, fCompMonoMix, fTotalCompression)
    }

    /** The members a sample step leaves alone: those `process` sets once
        per block, the sample rate and the buffer size. */
    function Fixed(): (real, real, real, real, real, int)
      reads this`kneeWidth, this`fCompType, this`fLookahead, this`fRelease, this`fSR, this`iBufferSize
    {
      (kneeWidth, fCompType, fLookahead, fRelease, fSR, iBufferSize)
    }

    /** The block settings agree with the members `process` stored. */
    ghost predicate Holds(s: Settings)
      reads this`kneeWidth, this`fCompType, this`fLookahead, this`fRelease
    {
      kneeWidth == s.knee && fCompType == s.compType && fLookahead == s.lookahead && fRelease == s.release
    }

    /** `new MyEffect()`: the `Effect` constructor sets every parameter to its
        control's initial value and the sample rate to 44100, then
        `initialise` runs at that rate.  The members the C++ code leaves
        uninitialised start arbitrary. */
    constructor (lib: Lib)
      requires lib.Sane()
      ensures Valid() && this.lib == lib
      ensures forall p :: 0 <= p < NumberOfParameters ==> params.values[p] == UiControls[p].initial
      ensures fSR == 44100.0 && iBufferSize == 88200 && iBufferWritePos == 0
      ensures forall i :: 0 <= i < iBufferSize ==> pfCircularBuffer0[i] == 0.0
      ensures peak0.State() == PeakState(44, 0, 0.0, 0.0, 0.0) && peak1.State() == PeakState(44, 0, 0.0, 0.0, 0.0)
      ensures rms0.iMeasuredItems == 0 && rms0.fSumOfSamples == 0.0
      ensures rms1.iMeasuredItems == 0 && rms1.fSumOfSamples == 0.0
      ensures filters == Filters([], [], [], [])
    {
      this.lib := lib;
      params := new ParameterStore.Effect();
      peak0 := new Peak(lib);
      peak1 := new Peak(lib);
      rms0 := new RMS(lib);
      rms1 := new RMS(lib);
      filters := Filters([], [], [], []);
      fComp, fCombinedSignal, fBand := *, *, *;
      fLeftComp, fRightComp := *, *;
      fCompType, fMonoPeak, fMonoRms, fCompMonoMix, fTotalCompression := *, *, *, *, *;
      kneeWidth, fLookahead, fSR, fRelease := *, *, *, *;
      pfCircularBuffer0 := new real[0];
      pfCircularBuffer1 := new real[0];
      iBufferSize, iBufferWritePos := *, *;
      delayInputs := [];
      new;
      assert TruncToInt(0.001 * 44100.0) == 44;
      assert TruncToInt(2.0 * 44100.0) == 88200;
      Initialise(44100.0);
    }

    /** `initialise`: detector windows of (int)(0.001 * rate) and 512 samples,
        two zeroed buffers of (int)(2 * rate) cells, write position 0. */
    method Initialise(sampleRate: real)
      requires Wired() && params.Valid() && params.count == NumberOfParameters
      requires TruncToInt(2.0 * sampleRate) >= 0
      modifies this`fSR, this`iBufferSize, this`pfCircularBuffer0, this`pfCircularBuffer1
      modifies this`iBufferWritePos, this`delayInputs, peak0, peak1, rms0, rms1
      ensures Valid()
      ensures fresh(pfCircularBuffer0) && fresh(pfCircularBuffer1)
      ensures fSR == sampleRate && iBufferSize == TruncToInt(2.0 * sampleRate) && iBufferWritePos == 0
      ensures delayInputs == []
      ensures pfCircularBuffer1.Length == iBufferSize
      ensures forall i :: 0 <= i < iBufferSize ==> pfCircularBuffer0[i] == 0.0 && pfCircularBuffer1[i] == 0.0
      ensures peak0.State() == PeakState(TruncToInt(0.001 * sampleRate), 0, 0.0, 0.0, 0.0)
      ensures peak1.State() == PeakState(TruncToInt(0.001 * sampleRate), 0, 0.0, 0.0, 0.0)
      ensures rms0.State() == RmsState(0, 0.0, old(rms0.oldSum), old(rms0.newSum))
      ensures rms1.State() == RmsState(0, 0.0, old(rms1.oldSum), old(rms1.newSum))
    {
      InitialiseDetectors(lib, peak0, peak1, rms0, rms1, TruncToInt(0.001 * sampleRate));
      fSR := sampleRate;
      iBufferSize := TruncToInt(2.0 * sampleRate);
      pfCircularBuffer0, pfCircularBuffer1 := NewZeroedBuffers(iBufferSize);
      iBufferWritePos := 0;
      delayInputs := [];
    }

    /** `delay(buffer, input, lookahead)`: advance the shared write position,
        store the input there and return the cell `Quantise(lookahead) * fSR`
        positions behind it. */
    method Delay(buffer: array<real>, input: real, lookahead: real) returns (out: real)
      requires buffer.Length == iBufferSize && 0 <= iBufferWritePos < iBufferSize
      requires 0.0 <= Offset(lookahead, fSR) <= iBufferSize as real
      modifies this`iBufferWritePos, buffer
      ensures iBufferWritePos == Next(old(iBufferWritePos), iBufferSize)
      ensures buffer[..] == old(buffer[..])[iBufferWritePos := input]
      ensures out == buffer[ReadIndex(iBufferWritePos, Offset(lookahead, fSR), iBufferSize)]
    {
      iBufferWritePos := iBufferWritePos + 1;
      if iBufferWritePos == iBufferSize {
        iBufferWritePos := 0;
      }
      buffer[iBufferWritePos] := input;
      // the lookahead is first truncated to whole hundredths
      var iBufferReadPos := TruncToInt(iBufferWritePos as real - Quantise(lookahead) * fSR);
      if iBufferReadPos < 0 {
        iBufferReadPos := iBufferReadPos + iBufferSize;
      }
      assert iBufferReadPos == ReadIndex(iBufferWritePos, Offset(lookahead, fSR), iBufferSize);
      out := buffer[iBufferReadPos];
    }

    /** `compressAndSendToMeter`: the mix members become `CompressAll` of the
        delayed bands and the chosen levels; the detector meter of the
        current mode and the compression meter are published. */
    method CompressAndSendToMeter(fInput: Quad, fMeterLevel: Quad, s: Settings)
      requires lib.Sane() && params.Valid() && params.count == NumberOfParameters && Holds(s)
      modifies this`fComp, this`fCombinedSignal, this`fLeftComp, this`fRightComp,
        this`fCompMonoMix, this`fTotalCompression, params.values
      ensures Mix() == CompressAll(lib, fInput, fMeterLevel, s)
      ensures params.values[..] ==
        if fCompType == 0.0 then old(params.values[..])[PeakMeterParam := fMonoPeak][CompMeterParam := fTotalCompression]
        else if fCompType == 1.0 then old(params.values[..])[RmsMeterParam := fMonoRms][CompMeterParam := fTotalCompression]
        else old(params.values[..])[CompMeterParam := fTotalCompression]
    {
      var m := CompressAll(lib, fInput, fMeterLevel, s);
      fComp := m.comp;
      fCombinedSignal := m.combined;
      fCompMonoMix := m.monoMix;
      fTotalCompression := m.total;
      fLeftComp := m.left;
      fRightComp := m.right;
      if fCompType == 0.0 {
        params.SetParameter(PeakMeterParam, fMonoPeak);
      } else if fCompType == 1.0 {
        params.SetParameter(RmsMeterParam, fMonoRms);
      }
      params.SetParameter(CompMeterParam, fTotalCompression);
    }

    /** `setCutoff(centre)` and one `tick` on each of the four filters. */
    method SplitBands(centre: real, in0: real, in1: real)
      modifies this`filters, this`fBand
      ensures State() == FilterPhase(lib, old(State()), centre, in0, in1)
      ensures delayInputs == old(delayInputs)
      ensures Fixed() == old(Fixed())
    {
      var high0 := filters.high0 + [(centre, in0 * -1.0)];
      var low0 := filters.low0 + [(centre, in0)];
      var high1 := filters.high1 + [(centre, in1 * -1.0)];
      var low1 := filters.low1 + [(centre, in1)];
      filters := Filters(high0, high1, low0, low1);
      fBand := Quad(Bands(lib.HighPass(high0), lib.LowPass(low0)), Bands(lib.HighPass(high1), lib.LowPass(low1)));
    }

    /** The mono meter readings. */
    method MonoMeters(in0: real, in1: real)
      requires Valid()
      modifies this`fMonoPeak, this`fMonoRms, peak0, peak1, rms0, rms1
      ensures Valid()
      ensures State() == MonoPhase(lib, old(State()), in0, in1)
      ensures Fixed() == old(Fixed())
      ensures delayInputs == old(delayInputs)
    {
      fMonoPeak, fMonoRms := DetectMono(lib, peak0, peak1, rms0, rms1, in0, in1);
      DetectorFrame();
    }

    /** The four `delay` calls of one sample on the first buffer, each band
        with the block's lookahead. */
    method DelayFour() returns (fDelSig: Quad)
      requires 0 <= iBufferWritePos < iBufferSize == pfCircularBuffer0.Length
      requires 0.0 <= Offset(fLookahead, fSR) <= iBufferSize as real
      modifies this`iBufferWritePos, pfCircularBuffer0
      ensures pfCircularBuffer0[..] == DelayCalls(old(pfCircularBuffer0[..]), old(iBufferWritePos), fBand, Offset(fLookahead, fSR)).0
      ensures iBufferWritePos == DelayCalls(old(pfCircularBuffer0[..]), old(iBufferWritePos), fBand, Offset(fLookahead, fSR)).1
      ensures fDelSig == DelayCalls(old(pfCircularBuffer0[..]), old(iBufferWritePos), fBand, Offset(fLookahead, fSR)).2
    {
      ghost var off := Offset(fLookahead, fSR);
      ghost var a := DelayStep(pfCircularBuffer0[..], iBufferWritePos, fBand.left.high, off);
      var dLH := Delay(pfCircularBuffer0, fBand.left.high, fLookahead);
      assert (pfCircularBuffer0[..], iBufferWritePos, dLH) == a;
      ghost var b := DelayStep(a.0, a.1, fBand.left.low, off);
      var dLL := Delay(pfCircularBuffer0, fBand.left.low, fLookahead);
      assert (pfCircularBuffer0[..], iBufferWritePos, dLL) == b;
      ghost var c := DelayStep(b.0, b.1, fBand.right.high, off);
      var dRH := Delay(pfCircularBuffer0, fBand.right.high, fLookahead);
      assert (pfCircularBuffer0[..], iBufferWritePos, dRH) == c;
      ghost var d := DelayStep(c.0, c.1, fBand.right.low, off);
      var dRL := Delay(pfCircularBuffer0, fBand.right.low, fLookahead);
      assert (pfCircularBuffer0[..], iBufferWritePos, dRL) == d;
      fDelSig := Quad(Bands(dLH, dLL), Bands(dRH, dRL));
    }

    /** The four `delay` calls keep the ring invariant over the delay
        inputs, which grow by the four bands. */
    method DelayCallsOnRing() returns (fDelSig: Quad)
      requires RingValid() && 1 <= iBufferSize && 0.0 <= Offset(fLookahead, fSR) <= iBufferSize as real
      modifies this`iBufferWritePos, this`delayInputs, pfCircularBuffer0
      ensures RingValid()
      ensures pfCircularBuffer0[..] == DelayCalls(old(pfCircularBuffer0[..]), old(iBufferWritePos), fBand, Offset(fLookahead, fSR)).0
      ensures iBufferWritePos == DelayCalls(old(pfCircularBuffer0[..]), old(iBufferWritePos), fBand, Offset(fLookahead, fSR)).1
      ensures fDelSig == DelayCalls(old(pfCircularBuffer0[..]), old(iBufferWritePos), fBand, Offset(fLookahead, fSR)).2
      ensures delayInputs == old(delayInputs) + Slots(fBand)
    {
      ghost var h := delayInputs;
      DelayCallsKeepRing(h, iBufferSize, fBand, Offset(fLookahead, fSR));
      fDelSig := DelayFour();
      delayInputs := h + Slots(fBand);
    }

    // Frame lemmas: when a phase changes only some members, the state
    // snapshot changes only in the matching components.

    twostate lemma RingFrame()
      requires unchanged(this`filters, this`fBand, this`fMonoPeak, this`fMonoRms)
      requires unchanged(this`fComp, this`fCombinedSignal, this`fLeftComp, this`fRightComp,
        this`fCompMonoMix, this`fTotalCompression)
      requires unchanged(this`pfCircularBuffer0, params.values, peak0, peak1, rms0, rms1)
      ensures State() == old(State()).(cells := pfCircularBuffer0[..], writePos := iBufferWritePos)
    {
    }

    twostate lemma DetectorFrame()
      requires unchanged(this`filters, this`fBand, this`pfCircularBuffer0, this`iBufferWritePos)
      requires unchanged(this`fComp, this`fCombinedSignal, this`fLeftComp, this`fRightComp,
        this`fCompMonoMix, this`fTotalCompression)
      requires unchanged(params.values, pfCircularBuffer0)
      ensures State() == old(State()).(det := Dets(), monoPeak := fMonoPeak, monoRms := fMonoRms)
    {
    }

    twostate lemma MixFrame()
      requires old(Valid())
      requires unchanged(this`filters, this`fBand, this`pfCircularBuffer0, this`iBufferWritePos)
      requires unchanged(this`fMonoPeak, this`fMonoRms, peak0, peak1, rms0, rms1, pfCircularBuffer0)
      requires unchanged(this`iBufferSize, this`delayInputs)
      ensures Valid()
      ensures State() == old(State()).(params := params.values[..], mix := Mix())
    {
    }

    /** The delay phase on the whole state. */
    method DelayBands() returns (fDelSig: Quad)
      requires Valid() && 1 <= iBufferSize && 0.0 <= Offset(fLookahead, fSR) <= iBufferSize as real
      modifies this`iBufferWritePos, this`delayInputs, pfCircularBuffer0
      ensures Valid()
      ensures State() == DelayPhase(old(State()), Offset(fLookahead, fSR)).0
      ensures fDelSig == DelayPhase(old(State()), Offset(fLookahead, fSR)).1
      ensures delayInputs == old(delayInputs) + Slots(State().band)
      ensures Fixed() == old(Fixed())
    {
      fDelSig := DelayCallsOnRing();
      RingFrame();
    }

    /** The band levels of the current bands. */
    method BandLevels(attack: real, release: real) returns (fBandPeakLevel: Quad, fBandRms: Quad)
      requires Valid()
      modifies peak0, peak1, rms0, rms1
      ensures Valid()
      ensures State() == LevelPhase(lib, old(State()), attack, release).0
      ensures fBandPeakLevel == LevelPhase(lib, old(State()), attack, release).1
      ensures fBandRms == LevelPhase(lib, old(State()), attack, release).2
      ensures Fixed() == old(Fixed())
      ensures delayInputs == old(delayInputs)
    {
      fBandPeakLevel, fBandRms := DetectLevels(lib, peak0, peak1, rms0, rms1, fBand, attack, release);
      DetectorFrame();
    }

    /** The detect-mode branch of the sample loop: mode 0 clears the RMS
        meter and compresses by the peak levels, mode 1 clears the peak
        meter and compresses by the RMS levels, any other mode does nothing. */
    method DetectModeBranch(fDelSig: Quad, fBandPeakLevel: Quad, fBandRms: Quad, s: Settings)
      requires Valid() && Holds(s)
      modifies this`fComp, this`fCombinedSignal, this`fLeftComp, this`fRightComp,
        this`fCompMonoMix, this`fTotalCompression, params.values
      ensures params.values[..] == MeterAndMix(lib, s, old(State()), fDelSig, fBandPeakLevel, fBandRms).params
      ensures Mix() == MeterAndMix(lib, s, old(State()), fDelSig, fBandPeakLevel, fBandRms).mix
      ensures unchanged(this`kneeWidth, this`fCompType, this`fLookahead, this`fRelease, this`fSR, this`iBufferSize)
    {
      if fCompType == 0.0 {
        params.SetParameter(RmsMeterParam, 0.0);
        CompressAndSendToMeter(fDelSig, fBandPeakLevel, s);
      } else if fCompType == 1.0 {
        params.SetParameter(PeakMeterParam, 0.0);
        CompressAndSendToMeter(fDelSig, fBandRms, s);
      }
    }

    /** The compression and metering phase on the whole state. */
    method CompressByDetectMode(fDelSig: Quad, fBandPeakLevel: Quad, fBandRms: Quad, s: Settings)
      requires Valid() && Holds(s)
      modifies this`fComp, this`fCombinedSignal, this`fLeftComp, this`fRightComp,
        this`fCompMonoMix, this`fTotalCompression, params.values
      ensures Valid()
      ensures State() == MeterAndMix(lib, s, old(State()), fDelSig, fBandPeakLevel, fBandRms)
      ensures Fixed() == old(Fixed())
      ensures delayInputs == old(delayInputs)
    {
      DetectModeBranch(fDelSig, fBandPeakLevel, fBandRms, s);
      MixFrame();
    }

    /** The first half of a sample step: the band split, the mono meters and
        the four delays; `fDelSig` holds the delayed bands. */
    method SplitMeterDelay(s: Settings, in0: real, in1: real) returns (fDelSig: Quad)
      requires Valid() && Holds(s) && SampleReady(s, fSR, State())
      modifies this`filters, this`fBand, this`fMonoPeak, this`fMonoRms
      modifies this`iBufferWritePos, this`delayInputs, peak0, peak1, rms0, rms1, pfCircularBuffer0
      ensures Valid()
      ensures var dp := DelayPhase(MonoPhase(lib, FilterPhase(lib, old(State()), s.centre, in0, in1), in0, in1),
                                   Offset(s.lookahead, fSR));
        State() == dp.0 && fDelSig == dp.1
      ensures delayInputs == old(delayInputs) + Slots(State().band)
      ensures Fixed() == old(Fixed())
    {
      ghost var st1 := FilterPhase(lib, State(), s.centre, in0, in1);
      ghost var st2 := MonoPhase(lib, st1, in0, in1);
      SplitBands(s.centre, in0, in1);
      assert State() == st1;
      MonoMeters(in0, in1);
      assert State() == st2;
      fDelSig := DelayBands();
    }

    /** One pass of the `while (numSamples--)` loop for the input pair
        (in0, in1); `out` is the pair stored to the outputs, if any. */
    method ProcessSample(s: Settings, in0: real, in1: real) returns (out: Option<(real, real)>)
      requires Valid() && Holds(s) && SampleReady(s, fSR, State())
      modifies this`filters, this`fBand, this`fMonoPeak, this`fMonoRms
      modifies this`iBufferWritePos, this`delayInputs, this`fComp, this`fCombinedSignal, this`fLeftComp,
        this`fRightComp, this`fCompMonoMix, this`fTotalCompression
      modifies params.values, peak0, peak1, rms0, rms1, pfCircularBuffer0
      ensures Valid()
      ensures State() == SampleStep(lib, s, fSR, old(State()), in0, in1).0
      ensures out == SampleStep(lib, s, fSR, old(State()), in0, in1).1
      ensures delayInputs == old(delayInputs) + Slots(State().band)
      ensures Fixed() == old(Fixed())
    {
      ghost var st0 := State();
      ghost var dp := DelayPhase(MonoPhase(lib, FilterPhase(lib, st0, s.centre, in0, in1), in0, in1),
                                 Offset(s.lookahead, fSR));
      ghost var lp := LevelPhase(lib, dp.0, s.attack, s.release);
      var fDelSig := SplitMeterDelay(s, in0, in1);
      var fBandPeakLevel, fBandRms := BandLevels(s.attack, fRelease);
      assert State() == lp.0 && fBandPeakLevel == lp.1 && fBandRms == lp.2;
      CompressByDetectMode(fDelSig, fBandPeakLevel, fBandRms, s);
      assert State() == SampleStep(lib, s, fSR, st0, in0, in1).0;
      out := SelectOutput(s.mono, fLeftComp, fRightComp, fCompMonoMix);
      assert Mix() == State().mix;
    }

    /** The state of the block loop of `process` before sample k: the
        effect has run the first k samples from `st0` on the inputs x0, x1,
        and the pairs `outs` written so far overwrite the outputs from their
        start (y0, y1 are the outputs' contents when the block began). */
    ghost predicate InBlock(s: Settings, f: StepFn, outputs0: array<real>, outputs1: array<real>,
                            st0: EffectState, x0: seq<real>, x1: seq<real>, y0: seq<real>, y1: seq<real>,
                            k: nat, pos: int, outs: seq<(real, real)>)
      reads this, params, params.values, peak0, peak1, rms0, rms1, pfCircularBuffer0, outputs0, outputs1
    {
      Valid() && Holds(s) && StepsAs(f, lib, s, fSR) && SampleReady(s, fSR, st0) &&
      k <= |x0| && k <= |x1| && k <= outputs0.Length && k <= outputs1.Length &&
      |y0| == outputs0.Length && |y1| == outputs1.Length &&
      (State(), outs) == RunWith(f, lib, s, fSR, st0, x0, x1, k) && pos == |outs| &&
      outputs0[..] == Overwrite(y0, Lefts(outs)) && outputs1[..] == Overwrite(y1, Rights(outs))
    }

    /** Sample k of the block loop of `process`: one sample step, then its
        output pair, if any, stored at `pos` in the output buffers. */
    method BlockStep(s: Settings, ghost f: StepFn, in0: real, in1: real, outputs0: array<real>, outputs1: array<real>,
                     ghost st0: EffectState, ghost x0: seq<real>, ghost x1: seq<real>, ghost y0: seq<real>,
                     ghost y1: seq<real>, k: nat, pos: int, ghost outs: seq<(real, real)>)
      returns (pos': int, ghost outs': seq<(real, real)>)
      requires InBlock(s, f, outputs0, outputs1, st0, x0, x1, y0, y1, k, pos, outs)
      requires k < |x0| && k < |x1| && in0 == x0[k] && in1 == x1[k] && k < outputs0.Length && k < outputs1.Length
      requires outputs0 != outputs1
      requires outputs0 != params.values && outputs0 != pfCircularBuffer0
      requires outputs1 != params.values && outputs1 != pfCircularBuffer0
      modifies this`filters, this`fBand, this`fMonoPeak, this`fMonoRms
      modifies this`iBufferWritePos, this`delayInputs, this`fComp, this`fCombinedSignal, this`fLeftComp,
        this`fRightComp, this`fCompMonoMix, this`fTotalCompression
      modifies params.values, peak0, peak1, rms0, rms1, pfCircularBuffer0, outputs0, outputs1
      ensures InBlock(s, f, outputs0, outputs1, st0, x0, x1, y0, y1, k + 1, pos', outs')
    {
      label Top:
      var o := RunStep(s, f, in0, in1, st0, x0, x1, k);
      assert unchanged@Top(outputs0) && unchanged@Top(outputs1);
      label Stored:
      pos', outs' := StoreWritten(outputs0, outputs1, y0, y1, pos, outs, o);
      assert unchanged@Stored(params.values) && unchanged@Stored(pfCircularBuffer0);
      OutputFrame@Stored();
    }

    /** Sample k of a block run from `st0` on the inputs x0, x1. */
    method RunStep(s: Settings, ghost f: StepFn, in0: real, in1: real, ghost st0: EffectState, ghost x0: seq<real>,
                   ghost x1: seq<real>, ghost k: nat) returns (out: Option<(real, real)>)
      requires Valid() && Holds(s) && SampleReady(s, fSR, st0) && k < |x0| && k < |x1|
      requires StepsAs(f, lib, s, fSR) && in0 == x0[k] && in1 == x1[k]
      requires State() == RunWith(f, lib, s, fSR, st0, x0, x1, k).0
      modifies this`filters, this`fBand, this`fMonoPeak, this`fMonoRms
      modifies this`iBufferWritePos, this`delayInputs, this`fComp, this`fCombinedSignal, this`fLeftComp,
        this`fRightComp, this`fCompMonoMix, this`fTotalCompression
      modifies params.values, peak0, peak1, rms0, rms1, pfCircularBuffer0
      ensures Valid() && Fixed() == old(Fixed())
      ensures (State(), RunWith(f, lib, s, fSR, st0, x0, x1, k).1 + Written(out)) ==
              RunWith(f, lib, s, fSR, st0, x0, x1, k + 1)
    {
      out := ProcessSample(s, in0, in1);
    }

    /** Only the output buffers changed since `old`: the state snapshot,
        the members and the invariant are as they were. */
    twostate lemma OutputFrame()
      requires old(Valid()) && unchanged(this)
      requires unchanged(params.values, peak0, peak1, rms0, rms1, pfCircularBuffer0)
      ensures Valid() && State() == old(State())
    {
    }

    /** `process`: the block's settings are read from the parameters once,
        the members among them are stored, and then each input pair runs
        through one sample step; every pair a step writes goes to the next
        position of the two outputs. */
    method Process(inputs0: array<real>, inputs1: array<real>, outputs0: array<real>, outputs1: array<real>,
                   numSamples: int)
      requires Valid() && 0 <= numSamples <= inputs0.Length && numSamples <= inputs1.Length
      requires numSamples <= outputs0.Length && numSamples <= outputs1.Length && outputs0 != outputs1
      requires outputs0 != params.values && outputs0 != pfCircularBuffer0
      requires outputs1 != params.values && outputs1 != pfCircularBuffer0
      requires inputs0 != params.values && inputs0 != pfCircularBuffer0
      requires inputs1 != params.values && inputs1 != pfCircularBuffer0
      requires inputs0 != outputs0 && inputs0 != outputs1 && inputs1 != outputs0 && inputs1 != outputs1
      requires SampleReady(BlockSettings(lib, params.values[..]), fSR, State())
      modifies this`kneeWidth, this`fCompType, this`fLookahead, this`fRelease
      modifies this`filters, this`fBand, this`fMonoPeak, this`fMonoRms
      modifies this`iBufferWritePos, this`delayInputs, this`fComp, this`fCombinedSignal, this`fLeftComp,
        this`fRightComp, this`fCompMonoMix, this`fTotalCompression
      modifies params.values, peak0, peak1, rms0, rms1, pfCircularBuffer0, outputs0, outputs1
      ensures Valid() && Holds(BlockSettings(lib, old(params.values[..])))
      ensures var r := Run(lib, BlockSettings(lib, old(params.values[..])), fSR, old(State()),
                           old(inputs0[..]), old(inputs1[..]), numSamples);
        State() == r.0 &&
        outputs0[..] == Overwrite(old(outputs0[..]), Lefts(r.1)) &&
        outputs1[..] == Overwrite(old(outputs1[..]), Rights(r.1))
    {
      ghost var st0 := State();
      ghost var x0 := inputs0[..];
      ghost var x1 := inputs1[..];
      ghost var y0 := outputs0[..];
      ghost var y1 := outputs1[..];
      var s := BlockSettings(lib, params.values[..]);
      fRelease := s.release;
      kneeWidth := s.knee;
      fCompType := s.compType;
      fLookahead := s.lookahead;
      assert State() == st0;
      assert inputs0[..] == x0 && inputs1[..] == x1;
      assert outputs0[..] == y0 && outputs1[..] == y1;
      RunSamples(s, inputs0, inputs1, outputs0, outputs1, numSamples, st0, x0, x1, y0, y1);
    }

    /** The sample loop of `process` under the block settings s, stated
        against `Run`. */
    method RunSamples(s: Settings, inputs0: array<real>, inputs1: array<real>, outputs0: array<real>,
                      outputs1: array<real>, numSamples: int, ghost st0: EffectState, ghost x0: seq<real>,
                      ghost x1: seq<real>, ghost y0: seq<real>, ghost y1: seq<real>)
      requires Valid() && Holds(s) && 0 <= numSamples <= inputs0.Length && numSamples <= inputs1.Length
      requires numSamples <= outputs0.Length && numSamples <= outputs1.Length && outputs0 != outputs1
      requires outputs0 != params.values && outputs0 != pfCircularBuffer0
      requires outputs1 != params.values && outputs1 != pfCircularBuffer0
      requires inputs0 != params.values && inputs0 != pfCircularBuffer0
      requires inputs1 != params.values && inputs1 != pfCircularBuffer0
      requires inputs0 != outputs0 && inputs0 != outputs1 && inputs1 != outputs0 && inputs1 != outputs1
      requires SampleReady(s, fSR, st0) && State() == st0
      requires inputs0[..] == x0 && inputs1[..] == x1 && outputs0[..] == y0 && outputs1[..] == y1
      modifies this`filters, this`fBand, this`fMonoPeak, this`fMonoRms
      modifies this`iBufferWritePos, this`delayInputs, this`fComp, this`fCombinedSignal, this`fLeftComp,
        this`fRightComp, this`fCompMonoMix, this`fTotalCompression
      modifies params.values, peak0, peak1, rms0, rms1, pfCircularBuffer0, outputs0, outputs1
      ensures Valid() && Holds(s)
      ensures var r := Run(lib, s, fSR, st0, x0, x1, numSamples);
        State() == r.0 && outputs0[..] == Overwrite(y0, Lefts(r.1)) && outputs1[..] == Overwrite(y1, Rights(r.1))
    {
      ghost var sr := fSR;
      ghost var f := StepAsValue(lib, s, sr);
      assert Lefts([]) == [] && Rights([]) == [];
      assert Overwrite(y0, []) == y0 && Overwrite(y1, []) == y1;
      ghost var outs := RunBlock(s, f, inputs0, inputs1, outputs0, outputs1, numSamples, st0, x0, x1, y0, y1);
      BlockIsRun(f, lib, s, sr, st0, x0, x1, y0, y1, numSamples, State(), outputs0[..], outputs1[..]);
    }

    /** The sample loop of `process` under the block settings s. */
    method RunBlock(s: Settings, ghost f: StepFn, inputs0: array<real>, inputs1: array<real>, outputs0: array<real>,
                    outputs1: array<real>, numSamples: int, ghost st0: EffectState, ghost x0: seq<real>,
                    ghost x1: seq<real>, ghost y0: seq<real>, ghost y1: seq<real>)
      returns (ghost outs: seq<(real, real)>)
      requires 0 <= numSamples <= inputs0.Length && numSamples <= inputs1.Length
      requires numSamples <= outputs0.Length && numSamples <= outputs1.Length && outputs0 != outputs1
      requires outputs0 != params.values && outputs0 != pfCircularBuffer0
      requires outputs1 != params.values && outputs1 != pfCircularBuffer0
      requires inputs0 != params.values && inputs0 != pfCircularBuffer0
      requires inputs1 != params.values && inputs1 != pfCircularBuffer0
      requires inputs0 != outputs0 && inputs0 != outputs1 && inputs1 != outputs0 && inputs1 != outputs1
      requires inputs0[..] == x0 && inputs1[..] == x1
      requires InBlock(s, f, outputs0, outputs1, st0, x0, x1, y0, y1, 0, 0, [])
      modifies this`filters, this`fBand, this`fMonoPeak, this`fMonoRms
      modifies this`iBufferWritePos, this`delayInputs, this`fComp, this`fCombinedSignal, this`fLeftComp,
        this`fRightComp, this`fCompMonoMix, this`fTotalCompression
      modifies params.values, peak0, peak1, rms0, rms1, pfCircularBuffer0, outputs0, outputs1
      ensures InBlock(s, f, outputs0, outputs1, st0, x0, x1, y0, y1, numSamples, |outs|, outs)
    {
      var k := 0;
      var pos := 0;
      outs := [];
      while k < numSamples
        invariant 0 <= k <= numSamples && InBlock(s, f, outputs0, outputs1, st0, x0, x1, y0, y1, k, pos, outs)
        invariant inputs0[..] == x0 && inputs1[..] == x1
      {
        pos, outs := BlockStep(s, f, inputs0[k], inputs1[k], outputs0, outputs1, st0, x0, x1, y0, y1, k, pos, outs);
        k := k + 1;
      }
    }
  }
}
