# TitanShield coax phase model in Dafny

TitanShield estimates how the electrical phase of an RF coaxial cable run
drifts with temperature and with mechanical g-loading. The computational core
modelled here is:

- the cable catalog: the immutable `CoaxCable` record and the constant
  `CABLE_LIBRARY` map (module `Entities`);
- `compute_phase_deg`: it looks the cable up (an unknown type is an error, even
  at a non-positive frequency), returns 0 for a non-positive frequency, and
  computes an effective length under sag. The loaded branch is that length at
  the actual load, scaled by the cable's ppm/°C temperature multiplier. The
  baseline branch is the length at 1 g. The function returns their phase
  difference wrapped with `(d + 180) % 360 - 180` (module `Models`);
- `sweep_phase_vs_freq`: it clamps the point count to at least 2, orders the
  endpoints, and builds two index-aligned lists of frequencies and phases
  with a loop (module `Models`, method `SweepPhaseVsFreq`, proved against
  the function `SweepSpec`);
- the verdict of `run_mission_simulation`: arcing is checked first, and noise
  only when there is no arcing (module `Mission`).

All quantities are Dafny `real`. The model uses only `+ - * /`, `max` and the
floored remainder, so no transcendental function is needed. The `ValueError`
for an unknown cable is `Err(UnknownCableType(..))` of a `Result`. A datatype
value never changes, which matches the frozen dataclass: a catalog record
cannot be altered after construction.

Where the code and TitanShield's design document disagree, the model follows
the code:

- The wrap uses Python's floored `%`, so the result lies in **[-180, 180)**. An
  exact +180 becomes -180. The comment at `src/models.py:69` says
  "[-180, 180]", closed at +180.
- The code's sag model clamps a negative load to 0 and compares against the
  1 g baseline. A load below 1 g therefore shortens the run relative to the
  baseline. The design document describes a separate routing model that clamps
  the load at 1 g; no such code exists in the source, so it is not modelled.

Files: `wrappers.dfy` (Option/Result), `entities.dfy`, `real_facts.dfy`
(small real-arithmetic lemmas), `models.dfy`, `mission.dfy`.

## Model

| member | source | states |
|---|---|---|
| Entities.LookupCable | src/models.py:25-27 | the lookup succeeds exactly for "RG-58", "RG-213" and "LMR-400"; the found record carries its own key as name and a velocity factor in (0, 1] |
| Entities.CatalogKeys | src/entities.py:13-32 | the catalog has exactly the keys "RG-58", "RG-213", "LMR-400" |
| Entities.CatalogEntriesValid | src/entities.py:7 | every entry is filed under its own name and has a velocity factor in (0, 1], so the wavelength is positive for a positive frequency |
| Entities.CatalogValues | src/entities.py:14-31 | the velocity factor, attenuation and temperature coefficient of each entry |
| Models.Mod360 | src/models.py:71 | Python's `% 360.0` lies in [0, 360) and differs from its input by whole turns |
| Models.Wrap180 | src/models.py:69-71 | the wrapped difference lies in [-180, 180), differs from the raw difference by whole turns, and is the raw difference itself when that is already in range |
| Models.Wrap180Unique | src/models.py:71 | the wrap is the only value in [-180, 180) congruent to its input modulo 360 |
| Models.Wrap180Periodic | src/models.py:71 | adding whole turns to a difference does not change its wrap |
| Models.ExtraPerSpan | src/models.py:42-46 | the extra length of one sagging span is never negative |
| Models.TotalExtra | src/models.py:48 | the extra length over all spans is never negative |
| Models.EffectiveLengthUnderG | src/models.py:38-49 | the effective length is never negative and never shorter than the nominal length |
| Models.SagSquareMonotone | src/models.py:40 | the squared sag does not decrease as the load grows |
| Models.ExtraPerSpanMonotone | src/models.py:40-46 | the extra length per span does not decrease as the load grows |
| Models.EffectiveLengthMonotone | src/models.py:38-49 | the effective length is non-decreasing in the load |
| Models.NegativeLoadActsAsZero | src/models.py:40 | a negative load gives the same length as load 0 |
| Models.NegativeSpansActAsZero | src/models.py:48 | a negative span count gives the same length as 0 spans |
| Models.ClampSpacingFloored | src/models.py:45 | a clamp spacing below 1e-6 m gives the same length as 1e-6 m |
| Models.NoSagNoLoadEffect | src/models.py:40-49 | with no spans or no sag the length is the nominal length (floored at 0) whatever the load |
| Models.PhaseError.Message | src/models.py:27 | the error text is the fixed prefix "Unknown cable_type: " followed by the rejected key |
| Models.MessageIdentifiesCableType | src/models.py:26-27 | two errors with the same text reject the same cable type |
| Models.FreqHz | src/models.py:29-30 | the frequency in hertz is positive exactly when the frequency in gigahertz is |
| Models.Wavelength | src/models.py:34-35 | the wavelength is positive for a positive velocity factor and frequency |
| Models.BaselineLength | src/models.py:51-52 | the baseline electrical length is never negative |
| Models.TempMultiplier | src/models.py:57-59 | the temperature multiplier is exactly 1 with no temperature change or a zero coefficient |
| Models.LoadedLength | src/models.py:54-63 | the loaded electrical length is the physical length at the actual load when the temperature multiplier is 1 |
| Models.PhaseOfLengthTurns | src/models.py:65-67 | an electrical length of 0 has phase 0, and one more wavelength of length adds exactly 360 degrees |
| Models.DeltaPhase | src/models.py:65-72 | the wrapped phase difference lies in [-180, 180) and is 0 when both electrical lengths are equal |
| Models.PhaseForCable | src/models.py:29-72 | for a catalog cable: 0 for a non-positive frequency, otherwise a value in [-180, 180) |
| Models.ComputePhaseDeg | src/models.py:25-72 | fails exactly for a cable type outside the catalog, whatever the frequency (lookup before the frequency guard); otherwise 0 for a non-positive frequency and a value in [-180, 180) |
| Models.PhaseForCableDependsOnLengths | src/models.py:34-67 | the phase depends only on the velocity factor, the temperature coefficient, the temperature change and the two effective lengths |
| Models.PhaseDifference | src/models.py:66-70 | the difference of the two phases equals 360 times the gained length times the frequency over the propagation speed |
| Models.DeltaPhaseAsDrift | src/models.py:34-71 | the wrapped phase difference at wavelength `c*vf/f` equals the wrap of `360 (e1 - e0) f / (c*vf)` |
| Models.PhaseForCableIsWrappedDrift | src/models.py:29-72 | for any cable with a valid velocity factor, at a positive frequency, the phase is the wrap of the reference drift |
| Models.PhaseIsWrappedDrift | src/models.py:29-72 | for a known cable at a positive frequency the result is the wrap of the reference drift `360 (Lg*m - L0) f / (c*vf)` |
| Models.BaselineIsZero | src/models.py:51-72 | with no temperature change and a 1 g load the result is exactly 0 for every known cable, frequency, length, span count, spacing and sag |
| Models.NoSagNoLoadEffectOnPhase | src/models.py:38-67 | with no spans or no sag the load has no effect on the result; only the temperature change matters |
| Models.PhaseIgnoresAttenuation | src/entities.py:8 | the attenuation field of a cable plays no part in its phase shift |
| Models.SweepPointCount | src/models.py:81-82 | the point count is at least 2 and equals the requested count when that is 2 or more |
| Models.SweepStep | src/models.py:83-85 | `count - 1` steps span exactly from the low to the high endpoint, and the step is never negative between ordered endpoints |
| Models.FreqAt | src/models.py:90 | point 0 is the start frequency, and with a non-negative step no point lies below the start |
| Models.FreqAtMonotone | src/models.py:89-90 | with a non-negative step a later point is never lower than an earlier one |
| Models.SweepFreqs | src/models.py:81-90 | the sweep has max(n, 2) frequencies and starts at min(start, stop) |
| Models.SweepEndsAtHigh | src/models.py:83-90 | the last frequency equals max(start, stop), exactly over the reals |
| Models.SweepConstantStep | src/models.py:85-90 | neighbouring frequencies are one constant, non-negative step apart |
| Models.SweepNonDecreasing | src/models.py:83-90 | the frequencies never decrease |
| Models.SweepSpec | src/models.py:81-93 | the sweep fails exactly when the cable type is unknown; otherwise both lists have max(n, 2) entries and `phases[i]` is the phase at `freqs[i]` with the same parameters |
| Models.SweepPhaseVsFreq | src/models.py:81-93 | the loop builds exactly the sweep `SweepSpec` describes, failing with the first point's error |
| Models.SweepClampsPointCount | src/models.py:81-82 | a point count below 2 gives the same sweep as 2 |
| Models.SweepSwapSymmetric | src/models.py:83-84 | swapping the endpoints gives an identical sweep |
| Mission.MissionStatus | src/main.py:15-19 | the status is one of the three strings; "FAILED: ARCOVER" exactly when the voltage exceeds the limit; "FAILED: NOISE INTERFERENCE" exactly when it does not and the leakage exceeds 0.001; "SUCCESS" otherwise |
| Mission.RunMissionSimulation | src/main.py:15-26 | the record carries the input altitude, the limit and the leakage; its status is exactly the verdict of `MissionStatus`, so "SUCCESS" exactly when neither check fails and otherwise the failure string that decides first |
| Mission.ArcoverDominatesNoise | src/main.py:16-17 | above the voltage limit the status does not depend on the leakage |
| Mission.BoundariesDoNotFail | src/main.py:16-18 | both comparisons are strict: a voltage equal to the limit together with leakage equal to 0.001 succeeds |

## Left out

- The graphical interface in `src/app.py`: it only collects inputs and shows a status string.
- Plotting in `src/visualizer.py`: its altitude loop only drives the simulation for display.
- Impedance and attenuation in `src/coax.py`: they use square roots and logarithms, which Dafny reals lack.
- The barometric pressure and Paschen breakdown in `src/environment.py`: they use `exp` and `log`. Its arcing check duplicates the one modelled from `src/main.py`.
- The breakdown limit and leakage computed at `src/main.py:7-12`: `paschen_breakdown_voltage`, `calculate_shielding_leakage` and `Atmosphere` are defined nowhere in the source, and `CoaxLine` is imported from `entities` but defined only in `src/coax.py`. The limit and the leakage are inputs to `Mission.MissionStatus` instead.
- Mission.RunMissionSimulation: takes the breakdown limit and leakage rather than the interference field, and does not apply `round()` to the breakdown voltage (2 places) or the leakage (6 places), because float rounding is not modelled.
- The permittivity/strain phase variant, the routing-sag variant and the unwrapped phase formulas in TitanShield's design document: no code for them exists in the source.
- IEEE-754 behaviour: NaN and infinite inputs, float `%` edge cases, and rounding in `f0 + i*step`. `Models.SweepEndsAtHigh` holds exactly only over the reals.
- Python keyword-argument errors: the sweep passes its extra arguments to `compute_phase_deg`. The model passes a complete `PhaseParams` record, so a missing or misspelt keyword cannot occur.
