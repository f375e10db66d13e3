/**
 * The verdict of a mission simulation: arcing is checked first, noise only
 * when there is no arcing. The breakdown voltage and the shielding leakage
 * are inputs here; the formulas that produce them are not part of this model.
 */
module Mission {

  const Success: string := "SUCCESS"
  const FailedArcover: string := "FAILED: ARCOVER"
  const FailedNoise: string := "FAILED: NOISE INTERFERENCE"

  /** Leakage above this threshold disturbs sensitive receivers. */
  const NoiseThreshold: real := 0.001

  /** The status string chosen from the operating voltage, the breakdown
      voltage limit and the leakage. Both comparisons are strict. */
  function MissionStatus(opVoltage: real, vLimit: real, leakage: real): (status: string)
    ensures status in {Success, FailedArcover, FailedNoise}
    ensures status == FailedArcover <==> opVoltage > vLimit
    ensures status == FailedNoise <==> opVoltage <= vLimit && leakage > NoiseThreshold
    ensures status == Success <==> opVoltage <= vLimit && leakage <= NoiseThreshold
  {
    if opVoltage > vLimit then FailedArcover
    else if leakage > NoiseThreshold then FailedNoise
    else Success
  }

  /** The record `run_mission_simulation` returns. */
  datatype MissionRecord = MissionRecord(
    altitude: real,
    breakdownV: real,
    noiseIngress: real,
    status: string
  )

  /** The simulation's result record for the given inputs. */
  function RunMissionSimulation(altitude: real, opVoltage: real, vLimit: real, leakage: real): (r: MissionRecord)
    ensures r.altitude == altitude
    ensures r.breakdownV == vLimit && r.noiseIngress == leakage
    ensures r.status in {Success, FailedArcover, FailedNoise}
    ensures r.status == Success <==> opVoltage <= vLimit && leakage <= NoiseThreshold
    ensures r.status == MissionStatus(opVoltage, vLimit, leakage)
  {
    MissionRecord(altitude, vLimit, leakage, MissionStatus(opVoltage, vLimit, leakage))
  }

  /** Arcing masks noise: above the limit the status is arcover whatever the
      leakage. */
  lemma ArcoverDominatesNoise(opVoltage: real, vLimit: real, leakage1: real, leakage2: real)
    requires opVoltage > vLimit
    ensures MissionStatus(opVoltage, vLimit, leakage1) == MissionStatus(opVoltage, vLimit, leakage2)
  {
  }

  /** Exactly at the limit and exactly at the threshold, nothing fails. */
  lemma BoundariesDoNotFail(vLimit: real)
    ensures MissionStatus(vLimit, vLimit, NoiseThreshold) == Success
  {
  }
}
