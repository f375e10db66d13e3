/**
 * The coaxial cable record and the fixed cable catalog that the phase model
 * reads. A Dafny datatype value is immutable, which is what TitanShield's
 * frozen dataclass guarantees: a catalog entry never changes after
 * construction.
 */
module Entities {
  import opened Wrappers

  /** One cable type: its velocity factor (a fraction of the speed of light),
      its attenuation (carried but unused by the phase model) and the drift of
      its electrical length in parts per million per degree Celsius. */
  datatype CoaxCable = CoaxCable(
    name: string,
    velocityFactor: real,
    alphaDbPerM: real,
    tempCoeffPpmPerC: real
  )

  /** A velocity factor is a fraction of the speed of light: in (0, 1]. */
  predicate ValidCable(c: CoaxCable) {
    0.0 < c.velocityFactor <= 1.0
  }

  /** The catalog of known cables, keyed by cable type. */
  const CableLibrary: map<string, CoaxCable> := map[
    "RG-58" := CoaxCable("RG-58", 0.66, 0.20, 50.0),
    "RG-213" := CoaxCable("RG-213", 0.66, 0.12, 45.0),
    "LMR-400" := CoaxCable("LMR-400", 0.85, 0.07, 20.0)
  ]

  /** Looks a cable type up in the catalog; an unknown key gives `None`. */
  function LookupCable(cableType: string): (r: Option<CoaxCable>)
    ensures r.Some? <==> cableType in {"RG-58", "RG-213", "LMR-400"}
    ensures r.Some? ==> r.value.name == cableType && ValidCable(r.value)
  {
    CatalogEntriesValid();
    if cableType in CableLibrary then Some(CableLibrary[cableType]) else None
  }

  /** The program's catalog holds exactly three cable types. */
  lemma CatalogKeys()
    ensures CableLibrary.Keys == {"RG-58", "RG-213", "LMR-400"}
  {
  }

  /** Every entry is filed under its own name and has a velocity factor in
      (0, 1], so a positive frequency always gives a positive wavelength. */
  lemma CatalogEntriesValid()
    ensures forall k :: k in CableLibrary ==> CableLibrary[k].name == k
    ensures forall k :: k in CableLibrary ==> ValidCable(CableLibrary[k])
  {
  }

  /** The concrete values of each entry. */
  lemma CatalogValues()
    ensures CableLibrary["RG-58"].velocityFactor == 0.66 && CableLibrary["RG-58"].tempCoeffPpmPerC == 50.0
    ensures CableLibrary["RG-213"].velocityFactor == 0.66 && CableLibrary["RG-213"].tempCoeffPpmPerC == 45.0
    ensures CableLibrary["LMR-400"].velocityFactor == 0.85 && CableLibrary["LMR-400"].tempCoeffPpmPerC == 20.0
    ensures CableLibrary["RG-58"].alphaDbPerM == 0.20
    ensures CableLibrary["RG-213"].alphaDbPerM == 0.12
    ensures CableLibrary["LMR-400"].alphaDbPerM == 0.07
  {
  }
}
