/**
 * The phase-shift model of a coaxial cable under temperature drift and
 * g-load sag, and the sweep of that phase shift over a frequency range.
 *
 * Everything is over `real`: the model uses only `+ - * /`, `max` and the
 * floored remainder, so no transcendental function is needed. Floating-point
 * rounding is not modelled.
 */
module Models {
  import opened Wrappers
  import opened Entities
  import opened RealFacts

  /** Speed of light in m/s. */
  const C: real := 299792458.0

  /** The error `compute_phase_deg` raises for a cable type not in the catalog. */
  datatype PhaseError = UnknownCableType(cableType: string)
  {
    /** The text of the error: a fixed prefix followed by the rejected key. */
    function Message(): (m: string)
      ensures |m| == |UnknownPrefix| + |cableType|
      ensures m[..|UnknownPrefix|] == UnknownPrefix
      ensures m[|UnknownPrefix|..] == cableType
    {
      UnknownPrefix + cableType
    }
  }

  const UnknownPrefix: string := "Unknown cable_type: "

  /** The message names the rejected cable type: distinct keys give distinct
      messages. */
  lemma MessageIdentifiesCableType(e1: PhaseError, e2: PhaseError)
    requires e1.Message() == e2.Message()
    ensures e1 == e2
  {
    assert e1.cableType == e1.Message()[|UnknownPrefix|..];
    assert e2.cableType == e2.Message()[|UnknownPrefix|..];
  }

  /** The parameters of `compute_phase_deg` other than the frequency; the
      sweep passes them on unchanged to every point. */
  datatype PhaseParams = PhaseParams(
    lengthM: real,
    deltaTC: real,
    gLoad: real,
    spans: int,
    clampSpacingM: real,
    sagAt1gMm: real,
    cableType: string
  )

  /** A frequency sweep: two index-aligned lists. */
  datatype Sweep = Sweep(freqs: seq<real>, phases: seq<real>)

  function Max(a: real, b: real): real {
    if a >= b then a else b
  }

  function Min(a: real, b: real): real {
    if a <= b then a else b
  }

  // ---------------------------------------------------------------------
  // The wrap of a phase difference
  // ---------------------------------------------------------------------

  /** `d` is a whole number of full turns (multiples of 360 degrees). */
  predicate IsWholeTurns(d: real) {
    (d / 360.0).Floor as real == d / 360.0
  }

  /** Python's float `a % 360.0`: the remainder of the floored division,
      which lies in [0, 360) whatever the sign of `a`. */
  function Mod360(a: real): (r: real)
    ensures 0.0 <= r < 360.0
    ensures IsWholeTurns(a - r)
  {
    a - 360.0 * ((a / 360.0).Floor as real)
  }

  /** `(d + 180) % 360 - 180`: the representative of `d` modulo a full turn
      in [-180, 180). An input already in that range is returned unchanged. */
  function Wrap180(d: real): (r: real)
    ensures -180.0 <= r < 180.0
    ensures IsWholeTurns(d - r)
    ensures -180.0 <= d < 180.0 ==> r == d
  {
    var m := Mod360(d + 180.0);
    assert (d + 180.0) - m == d - (m - 180.0);
    assert -180.0 <= d < 180.0 ==> m - 180.0 == d by {
      if -180.0 <= d < 180.0 {
        WholeTurnsInsideTurnIsZero((d + 180.0) - m);
      }
    }
    m - 180.0
  }

  /** A whole number of turns strictly smaller than one turn is zero. */
  lemma WholeTurnsInsideTurnIsZero(d: real)
    requires -360.0 < d < 360.0
    requires IsWholeTurns(d)
    ensures d == 0.0
  {
    assert -1.0 < d / 360.0 < 1.0;
  }

  /** The wrap is determined by its two properties: the only value in
      [-180, 180) that differs from `d` by whole turns is `Wrap180(d)`. */
  lemma Wrap180Unique(d: real, r: real)
    requires -180.0 <= r < 180.0
    requires IsWholeTurns(d - r)
    ensures r == Wrap180(d)
  {
    var w := Wrap180(d);
    var k1 := ((d - r) / 360.0).Floor;
    var k2 := ((d - w) / 360.0).Floor;
    assert (w - r) / 360.0 == (k1 - k2) as real;
    WholeTurnsInsideTurnIsZero(w - r);
  }

  /** Adding whole turns to a phase difference does not change its wrap. */
  lemma Wrap180Periodic(d: real, k: int)
    ensures Wrap180(d + 360.0 * (k as real)) == Wrap180(d)
  {
    var w := Wrap180(d);
    var j := ((d - w) / 360.0).Floor;
    assert (d + 360.0 * (k as real) - w) / 360.0 == (j + k) as real;
    Wrap180Unique(d + 360.0 * (k as real), w);
  }

  // ---------------------------------------------------------------------
  // Effective length under g-load
  // ---------------------------------------------------------------------

  /** The sag of one span in metres at load `g`; a negative load counts as 0. */
  function SagM(p: PhaseParams, g: real): real {
    (p.sagAt1gMm / 1000.0) * Max(g, 0.0)
  }

  /** The clamp spacing, floored at one micrometre. */
  function SpanLen(p: PhaseParams): (r: real)
    ensures r >= 0.000001
  {
    Max(p.clampSpacingM, 0.000001)
  }

  /** Extra length of one span at load `g`, from the small-sag parabola arc
      approximation `8 sag^2 / (3 span)`. */
  function ExtraPerSpan(p: PhaseParams, g: real): (r: real)
    ensures r >= 0.0
  {
    var sagM := SagM(p, g);
    assert sagM * sagM >= 0.0;
    (8.0 * sagM * sagM) / (3.0 * SpanLen(p))
  }

  /** The span count, a negative one counting as 0. */
  function SpanCount(p: PhaseParams): nat {
    if p.spans >= 0 then p.spans else 0
  }

  /** Extra cable length over all spans at load `g`. */
  function TotalExtra(p: PhaseParams, g: real): (r: real)
    ensures r >= 0.0
  {
    ExtraPerSpan(p, g) * (SpanCount(p) as real)
  }

  /** The physical length of the run under load `g`, never negative and
      never shorter than the nominal length. */
  function EffectiveLengthUnderG(p: PhaseParams, g: real): (r: real)
    ensures r >= 0.0 && r >= p.lengthM
  {
    Max(p.lengthM + TotalExtra(p, g), 0.0)
  }

  /** The square of the sag grows with the load. */
  lemma SagSquareMonotone(p: PhaseParams, g1: real, g2: real)
    requires g1 <= g2
    ensures SagM(p, g1) * SagM(p, g1) <= SagM(p, g2) * SagM(p, g2)
  {
    var c := p.sagAt1gMm / 1000.0;
    var m1, m2 := Max(g1, 0.0), Max(g2, 0.0);
    SquareMonotone(m1, m2);
    assert SagM(p, g1) * SagM(p, g1) == (c * c) * (m1 * m1);
    assert SagM(p, g2) * SagM(p, g2) == (c * c) * (m2 * m2);
    MulLeft(c * c, m1 * m1, m2 * m2);
  }

  /** The extra length of a span grows with the load. */
  lemma ExtraPerSpanMonotone(p: PhaseParams, g1: real, g2: real)
    requires g1 <= g2
    ensures ExtraPerSpan(p, g1) <= ExtraPerSpan(p, g2)
  {
    var s1, s2 := SagM(p, g1), SagM(p, g2);
    SagSquareMonotone(p, g1, g2);
    MulLeft(8.0, s1 * s1, s2 * s2);
    assert 8.0 * s1 * s1 == 8.0 * (s1 * s1);
    assert 8.0 * s2 * s2 == 8.0 * (s2 * s2);
    DivRight(8.0 * s1 * s1, 8.0 * s2 * s2, 3.0 * SpanLen(p));
  }

  /** More load never shortens the run. */
  lemma EffectiveLengthMonotone(p: PhaseParams, g1: real, g2: real)
    requires g1 <= g2
    ensures EffectiveLengthUnderG(p, g1) <= EffectiveLengthUnderG(p, g2)
  {
    ExtraPerSpanMonotone(p, g1, g2);
    MulRight(ExtraPerSpan(p, g1), ExtraPerSpan(p, g2), SpanCount(p) as real);
    var t1, t2 := TotalExtra(p, g1), TotalExtra(p, g2);
    assert t1 <= t2;
    assert EffectiveLengthUnderG(p, g1) == Max(p.lengthM + t1, 0.0);
    assert EffectiveLengthUnderG(p, g2) == Max(p.lengthM + t2, 0.0);
  }

  /** A negative load is treated as no load. */
  lemma NegativeLoadActsAsZero(p: PhaseParams, g: real)
    requires g < 0.0
    ensures EffectiveLengthUnderG(p, g) == EffectiveLengthUnderG(p, 0.0)
  {
  }

  /** A negative span count is treated as zero spans. */
  lemma NegativeSpansActAsZero(p: PhaseParams, g: real)
    requires p.spans < 0
    ensures EffectiveLengthUnderG(p, g) == EffectiveLengthUnderG(p.(spans := 0), g)
  {
  }

  /** A clamp spacing below one micrometre is treated as one micrometre. */
  lemma ClampSpacingFloored(p: PhaseParams, g: real)
    requires p.clampSpacingM < 0.000001
    ensures EffectiveLengthUnderG(p, g) == EffectiveLengthUnderG(p.(clampSpacingM := 0.000001), g)
  {
  }

  /** Without spans or without sag the load does not change the length. */
  lemma NoSagNoLoadEffect(p: PhaseParams, g: real)
    requires p.spans <= 0 || p.sagAt1gMm == 0.0
    ensures EffectiveLengthUnderG(p, g) == Max(p.lengthM, 0.0)
  {
    if p.sagAt1gMm == 0.0 {
      assert SagM(p, g) == 0.0;
    }
  }

  // ---------------------------------------------------------------------
  // Phase shift
  // ---------------------------------------------------------------------

  /** The temperature multiplier of the electrical length (ppm per degree). */
  function TempMultiplier(tempCoeffPpmPerC: real, deltaTC: real): (r: real)
    ensures deltaTC == 0.0 ==> r == 1.0
    ensures tempCoeffPpmPerC == 0.0 ==> r == 1.0
  {
    1.0 + (tempCoeffPpmPerC * 0.000001 * deltaTC)
  }

  /** The frequency in hertz of a frequency in gigahertz. */
  function FreqHz(freqGhz: real): (f: real)
    ensures f > 0.0 <==> freqGhz > 0.0
  {
    freqGhz * 1000000000.0
  }

  /** The wavelength in metres at `fHz` for a given velocity factor. */
  function Wavelength(velocityFactor: real, fHz: real): (w: real)
    requires velocityFactor > 0.0 && fHz > 0.0
    ensures w > 0.0
  {
    (C * velocityFactor) / fHz
  }

  /** The phase in degrees of an electrical length: 360 per wavelength. */
  function PhaseOfLength(e: real, wavelength: real): (r: real)
    requires wavelength > 0.0
  {
    360.0 * (e / wavelength)
  }

  /** Phase counts wavelengths in turns: no length is no phase, and one more
      wavelength of cable adds exactly one full turn. */
  lemma PhaseOfLengthTurns(e: real, wavelength: real)
    requires wavelength > 0.0
    ensures PhaseOfLength(0.0, wavelength) == 0.0
    ensures PhaseOfLength(e + wavelength, wavelength) == PhaseOfLength(e, wavelength) + 360.0
  {
    assert (e + wavelength) / wavelength == e / wavelength + wavelength / wavelength;
  }

  /** The electrical length of the baseline branch: the run at 1 g, with no
      temperature change. */
  function BaselineLength(p: PhaseParams): (e: real)
    ensures e >= 0.0
  {
    EffectiveLengthUnderG(p, 1.0)
  }

  /** The electrical length of the loaded branch: the run at the actual load,
      scaled by the temperature multiplier. */
  function LoadedLength(cable: CoaxCable, p: PhaseParams): (e: real)
    ensures TempMultiplier(cable.tempCoeffPpmPerC, p.deltaTC) == 1.0 ==> e == EffectiveLengthUnderG(p, p.gLoad)
  {
    EffectiveLengthUnderG(p, p.gLoad) * TempMultiplier(cable.tempCoeffPpmPerC, p.deltaTC)
  }

  /** The phase of electrical length `e1` minus that of the baseline `e0`,
      wrapped; equal lengths give no shift. */
  function DeltaPhase(e0: real, e1: real, wavelength: real): (r: real)
    requires wavelength > 0.0
    ensures -180.0 <= r < 180.0
    ensures e0 == e1 ==> r == 0.0
  {
    Wrap180(PhaseOfLength(e1, wavelength) - PhaseOfLength(e0, wavelength))
  }

  /** The computation of `compute_phase_deg` once the cable is known: the
      loaded, temperature-scaled phase minus the baseline phase at 1 g,
      wrapped. A non-positive frequency gives 0. */
  function PhaseForCable(cable: CoaxCable, freqGhz: real, p: PhaseParams): (r: real)
    requires ValidCable(cable)
    ensures freqGhz <= 0.0 ==> r == 0.0
    ensures -180.0 <= r < 180.0
  {
    var fHz := FreqHz(freqGhz);
    if fHz <= 0.0 then 0.0
    else
      DeltaPhase(BaselineLength(p), LoadedLength(cable, p), Wavelength(cable.velocityFactor, fHz))
  }

  /** `compute_phase_deg`: the cable is looked up first, so an unknown cable
      type fails whatever the frequency; a known one gives a phase
      difference in [-180, 180), and 0 for a non-positive frequency. */
  function ComputePhaseDeg(freqGhz: real, p: PhaseParams): (r: Result<real, PhaseError>)
    ensures r.Err? <==> p.cableType !in CableLibrary
    ensures r.Err? ==> r.error == UnknownCableType(p.cableType)
    ensures r.Ok? && freqGhz <= 0.0 ==> r.value == 0.0
    ensures r.Ok? ==> -180.0 <= r.value < 180.0
  {
    match LookupCable(p.cableType)
    case None => Err(UnknownCableType(p.cableType))
    case Some(cable) => Ok(PhaseForCable(cable, freqGhz, p))
  }

  /** The phase at a positive frequency, in terms of the two lengths. */
  lemma PhaseForCableAtPositiveFrequency(cable: CoaxCable, freqGhz: real, p: PhaseParams)
    requires ValidCable(cable) && freqGhz > 0.0
    ensures PhaseForCable(cable, freqGhz, p)
         == DeltaPhase(BaselineLength(p), LoadedLength(cable, p), Wavelength(cable.velocityFactor, FreqHz(freqGhz)))
  {
  }

  /** The phase depends on the cable only through its velocity factor and
      temperature coefficient, and on the parameters only through the
      temperature change and the baseline and loaded lengths. */
  lemma PhaseForCableDependsOnLengths(c1: CoaxCable, c2: CoaxCable, freqGhz: real, p1: PhaseParams, p2: PhaseParams)
    requires ValidCable(c1) && ValidCable(c2)
    requires c1.velocityFactor == c2.velocityFactor && c1.tempCoeffPpmPerC == c2.tempCoeffPpmPerC
    requires p1.deltaTC == p2.deltaTC
    requires EffectiveLengthUnderG(p1, 1.0) == EffectiveLengthUnderG(p2, 1.0)
    requires EffectiveLengthUnderG(p1, p1.gLoad) == EffectiveLengthUnderG(p2, p2.gLoad)
    ensures PhaseForCable(c1, freqGhz, p1) == PhaseForCable(c2, freqGhz, p2)
  {
    if freqGhz > 0.0 {
      PhaseForCableAtPositiveFrequency(c1, freqGhz, p1);
      PhaseForCableAtPositiveFrequency(c2, freqGhz, p2);
      assert LoadedLength(c1, p1) == LoadedLength(c2, p2);
    }
  }

  /** The drift in degrees, written without the wavelength: the electrical
      length gained over the baseline, times the frequency, over the
      propagation speed, in turns of 360 degrees. */
  function ReferenceDrift(cable: CoaxCable, freqGhz: real, p: PhaseParams): real
    requires ValidCable(cable)
  {
    DriftOf(BaselineLength(p), LoadedLength(cable, p), cable.velocityFactor, FreqHz(freqGhz))
  }

  /** `360 (e1 - e0) f / (c vf)`: the phase drift, in degrees, of an
      electrical length `e1` against `e0` at `fHz`. */
  function DriftOf(e0: real, e1: real, velocityFactor: real, fHz: real): real
    requires velocityFactor > 0.0
  {
    360.0 * (e1 - e0) * fHz / (C * velocityFactor)
  }

  /** The difference of the two phases is the phase of the length difference. */
  lemma PhaseDifference(e1: real, e0: real, v: real, f: real)
    requires v > 0.0 && f > 0.0
    ensures PhaseOfLength(e1, v / f) - PhaseOfLength(e0, v / f) == 360.0 * (e1 - e0) * f / v
  {
    DivideByQuotient(e0, v, f);
    DivideByQuotient(e1, v, f);
    assert 360.0 * (e1 * f / v) - 360.0 * (e0 * f / v) == 360.0 * (e1 - e0) * f / v;
  }

  /** The wrapped phase difference of two electrical lengths, written
      without the wavelength. */
  lemma DeltaPhaseAsDrift(e0: real, e1: real, velocityFactor: real, fHz: real)
    requires velocityFactor > 0.0 && fHz > 0.0
    ensures DeltaPhase(e0, e1, Wavelength(velocityFactor, fHz)) == Wrap180(DriftOf(e0, e1, velocityFactor, fHz))
  {
    var v := C * velocityFactor;
    var w := Wavelength(velocityFactor, fHz);
    assert w == v / fHz;
    PhaseDifference(e1, e0, v, fHz);
  }

  /** For a known cable and a positive frequency, the result is the wrap of
      the reference drift. */
  lemma PhaseIsWrappedDrift(freqGhz: real, p: PhaseParams)
    requires p.cableType in CableLibrary && freqGhz > 0.0
    ensures ValidCable(CableLibrary[p.cableType])
    ensures ComputePhaseDeg(freqGhz, p) == Ok(Wrap180(ReferenceDrift(CableLibrary[p.cableType], freqGhz, p)))
  {
    CatalogEntriesValid();
    var cable := CableLibrary[p.cableType];
    assert LookupCable(p.cableType) == Some(cable);
    assert ComputePhaseDeg(freqGhz, p) == Ok(PhaseForCable(cable, freqGhz, p));
    PhaseForCableIsWrappedDrift(cable, freqGhz, p);
  }

  /** Once the cable is known, the phase at a positive frequency is the wrap
      of the reference drift. */
  lemma PhaseForCableIsWrappedDrift(cable: CoaxCable, freqGhz: real, p: PhaseParams)
    requires ValidCable(cable) && freqGhz > 0.0
    ensures PhaseForCable(cable, freqGhz, p) == Wrap180(ReferenceDrift(cable, freqGhz, p))
  {
    PhaseForCableAtPositiveFrequency(cable, freqGhz, p);
    DeltaPhaseAsDrift(BaselineLength(p), LoadedLength(cable, p), cable.velocityFactor, FreqHz(freqGhz));
  }

  /** With no temperature change and a load of exactly 1 g, the loaded branch
      is the baseline, so the phase shift is 0 for every known cable. */
  lemma BaselineIsZero(freqGhz: real, p: PhaseParams)
    requires p.cableType in CableLibrary
    requires p.deltaTC == 0.0 && p.gLoad == 1.0
    ensures ComputePhaseDeg(freqGhz, p) == Ok(0.0)
  {
    CatalogEntriesValid();
    var cable := CableLibrary[p.cableType];
    if freqGhz > 0.0 {
      PhaseForCableAtPositiveFrequency(cable, freqGhz, p);
      assert TempMultiplier(cable.tempCoeffPpmPerC, p.deltaTC) == 1.0;
      assert LoadedLength(cable, p) == BaselineLength(p);
    }
  }

  /** Without spans or without sag, the load has no effect on the phase:
      only the temperature change matters. */
  lemma NoSagNoLoadEffectOnPhase(freqGhz: real, p: PhaseParams, g: real)
    requires p.spans <= 0 || p.sagAt1gMm == 0.0
    ensures ComputePhaseDeg(freqGhz, p) == ComputePhaseDeg(freqGhz, p.(gLoad := g))
  {
    var q := p.(gLoad := g);
    if p.cableType in CableLibrary {
      CatalogEntriesValid();
      var cable := CableLibrary[p.cableType];
      NoSagNoLoadEffect(p, p.gLoad);
      NoSagNoLoadEffect(p, 1.0);
      NoSagNoLoadEffect(q, g);
      NoSagNoLoadEffect(q, 1.0);
      PhaseForCableDependsOnLengths(cable, cable, freqGhz, p, q);
    }
  }

  /** The attenuation of a cable plays no part in its phase shift. */
  lemma PhaseIgnoresAttenuation(cable: CoaxCable, alpha: real, freqGhz: real, p: PhaseParams)
    requires ValidCable(cable)
    ensures PhaseForCable(cable.(alphaDbPerM := alpha), freqGhz, p) == PhaseForCable(cable, freqGhz, p)
  {
    PhaseForCableDependsOnLengths(cable.(alphaDbPerM := alpha), cable, freqGhz, p, p);
  }

  // ---------------------------------------------------------------------
  // Frequency sweep
  // ---------------------------------------------------------------------

  /** The number of sweep points: at least 2. */
  function SweepPointCount(n: int): (count: int)
    ensures count >= 2
    ensures n >= 2 ==> count == n
  {
    if n < 2 then 2 else n
  }

  /** The spacing of `count` points from `lo` to `hi`. */
  function SweepStep(lo: real, hi: real, count: int): (step: real)
    requires count >= 2
    ensures ((count - 1) as real) * step == hi - lo
    ensures lo <= hi ==> step >= 0.0
  {
    QuotientTimesDivisor(hi - lo, (count - 1) as real);
    assert lo <= hi ==> (hi - lo) / ((count - 1) as real) >= 0.0 by {
      if lo <= hi {
        DivRight(0.0, hi - lo, (count - 1) as real);
      }
    }
    (hi - lo) / ((count - 1) as real)
  }

  /** The frequency of point `i`. */
  function FreqAt(f0: real, step: real, i: int): (f: real)
    ensures i == 0 ==> f == f0
    ensures 0 <= i && step >= 0.0 ==> f >= f0
  {
    assert 0 <= i && step >= 0.0 ==> (i as real) * step >= 0.0 by {
      if 0 <= i && step >= 0.0 {
        ScaledOrder(0, i, step);
      }
    }
    f0 + (i as real) * step
  }

  /** With a non-negative step, later points are never lower. */
  lemma FreqAtMonotone(f0: real, step: real, i: int, j: int)
    requires i <= j && step >= 0.0
    ensures FreqAt(f0, step, i) <= FreqAt(f0, step, j)
  {
    ScaledOrder(i, j, step);
  }

  /** The frequencies of a sweep: evenly spaced from the lower to the higher
      endpoint, whatever order they are given in. */
  function SweepFreqs(fStart: real, fStop: real, n: int): (fs: seq<real>)
    ensures |fs| == SweepPointCount(n)
    ensures fs[0] == Min(fStart, fStop)
  {
    var count := SweepPointCount(n);
    var lo, hi := Min(fStart, fStop), Max(fStart, fStop);
    var step := SweepStep(lo, hi, count);
    seq(count, i => FreqAt(lo, step, i))
  }

  /** The sweep `sweep_phase_vs_freq` returns: the frequencies, and at each
      index the phase at that frequency; the whole sweep fails if a point
      fails, which is exactly when the cable type is unknown. */
  function SweepSpec(fStart: real, fStop: real, n: int, p: PhaseParams): (r: Result<Sweep, PhaseError>)
    ensures r.Err? <==> p.cableType !in CableLibrary
    ensures r.Err? ==> r.error == UnknownCableType(p.cableType)
    ensures r.Ok? ==> r.value.freqs == SweepFreqs(fStart, fStop, n)
    ensures r.Ok? ==> |r.value.phases| == |r.value.freqs|
    ensures r.Ok? ==> forall i :: 0 <= i < |r.value.freqs| ==>
                        ComputePhaseDeg(r.value.freqs[i], p) == Ok(r.value.phases[i])
  {
    if p.cableType !in CableLibrary then
      Err(UnknownCableType(p.cableType))
    else
      var fs := SweepFreqs(fStart, fStop, n);
      Ok(Sweep(fs, seq(|fs|, i requires 0 <= i < |fs| => ComputePhaseDeg(fs[i], p).value)))
  }

  /** `sweep_phase_vs_freq`: clamps the point count, orders the endpoints and
      builds the two lists point by point; the first failing point ends the
      sweep with its error. */
  method SweepPhaseVsFreq(fStartGhz: real, fStopGhz: real, n: int, p: PhaseParams)
    returns (r: Result<Sweep, PhaseError>)
    ensures r == SweepSpec(fStartGhz, fStopGhz, n, p)
  {
    var count := n;
    if count < 2 {
      count := 2;
    }
    var f0 := Min(fStartGhz, fStopGhz);
    var f1 := Max(fStartGhz, fStopGhz);
    var step := SweepStep(f0, f1, count);
    ghost var expected := SweepFreqs(fStartGhz, fStopGhz, n);
    assert count == |expected|;
    assert forall k :: 0 <= k < count ==> expected[k] == FreqAt(f0, step, k);
    var freqs: seq<real> := [];
    var phases: seq<real> := [];
    for i := 0 to count
      invariant |freqs| == i && |phases| == i
      invariant freqs == expected[..i]
      invariant forall k :: 0 <= k < i ==> ComputePhaseDeg(freqs[k], p) == Ok(phases[k])
    {
      var f := FreqAt(f0, step, i);
      freqs := freqs + [f];
      var phase := ComputePhaseDeg(f, p);
      if phase.Err? {
        return Err(phase.error);
      }
      phases := phases + [phase.value];
    }
    assert freqs == expected;
    ghost var spec := SweepSpec(fStartGhz, fStopGhz, n, p);
    assert spec.Ok?;
    assert phases == spec.value.phases;
    r := Ok(Sweep(freqs, phases));
  }

  /** Point `k` of a sweep lies `k` steps above the lower endpoint. */
  lemma SweepFreqAt(fStart: real, fStop: real, n: int, k: int)
    requires 0 <= k < SweepPointCount(n)
    ensures SweepFreqs(fStart, fStop, n)[k]
         == FreqAt(Min(fStart, fStop), SweepStep(Min(fStart, fStop), Max(fStart, fStop), SweepPointCount(n)), k)
  {
  }

  /** The last frequency is the higher endpoint (exactly, over the reals). */
  lemma SweepEndsAtHigh(fStart: real, fStop: real, n: int)
    ensures SweepFreqs(fStart, fStop, n)[SweepPointCount(n) - 1] == Max(fStart, fStop)
  {
    var count := SweepPointCount(n);
    var lo, hi := Min(fStart, fStop), Max(fStart, fStop);
    var step := SweepStep(lo, hi, count);
    SweepFreqAt(fStart, fStop, n, count - 1);
    assert ((count - 1) as real) * step == hi - lo;
  }

  /** Neighbouring frequencies are one constant, non-negative step apart. */
  lemma SweepConstantStep(fStart: real, fStop: real, n: int, i: int)
    requires 0 < i < SweepPointCount(n)
    ensures var step := SweepStep(Min(fStart, fStop), Max(fStart, fStop), SweepPointCount(n));
            step >= 0.0 && SweepFreqs(fStart, fStop, n)[i] - SweepFreqs(fStart, fStop, n)[i - 1] == step
  {
    var count := SweepPointCount(n);
    var lo, hi := Min(fStart, fStop), Max(fStart, fStop);
    var step := SweepStep(lo, hi, count);
    SweepFreqAt(fStart, fStop, n, i);
    SweepFreqAt(fStart, fStop, n, i - 1);
    ScaledNeighbours(i, step);
  }

  /** The frequencies never decrease. */
  lemma SweepNonDecreasing(fStart: real, fStop: real, n: int, i: int, j: int)
    requires 0 <= i <= j < SweepPointCount(n)
    ensures SweepFreqs(fStart, fStop, n)[i] <= SweepFreqs(fStart, fStop, n)[j]
  {
    var count := SweepPointCount(n);
    var lo, hi := Min(fStart, fStop), Max(fStart, fStop);
    var step := SweepStep(lo, hi, count);
    SweepFreqAt(fStart, fStop, n, i);
    SweepFreqAt(fStart, fStop, n, j);
    assert lo <= hi && step >= 0.0;
    FreqAtMonotone(lo, step, i, j);
  }

  /** A point count below 2 behaves as 2. */
  lemma SweepClampsPointCount(fStart: real, fStop: real, n: int, p: PhaseParams)
    requires n < 2
    ensures SweepSpec(fStart, fStop, n, p) == SweepSpec(fStart, fStop, 2, p)
  {
  }

  /** Swapping the endpoints gives the same sweep. */
  lemma SweepSwapSymmetric(fStart: real, fStop: real, n: int, p: PhaseParams)
    ensures SweepSpec(fStart, fStop, n, p) == SweepSpec(fStop, fStart, n, p)
  {
    assert Min(fStart, fStop) == Min(fStop, fStart);
    assert Max(fStart, fStop) == Max(fStop, fStart);
  }
}
