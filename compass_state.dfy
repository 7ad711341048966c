/**
 * The compass snapshot record and its heading-sector classifier
 * (state/CompassState.kt, with the Location record of sensor/LocationManager.kt).
 *
 * Kotlin `Float`/`Double` values are modelled as `real`. Every threshold of the
 * classifier is a multiple of 22.5, which a float holds exactly, so for every
 * finite float the comparisons give the same outcome on the real it denotes.
 */
module CompassStateModel {
  import opened Wrappers
  import opened RealRounding

  /** One position fix; each field defaults as in the Kotlin data class. */
  datatype Location = Location(
    latitude: real := 0.0,
    longitude: real := 0.0,
    altitude: real := 0.0,
    hasAltitude: bool := false,
    speed: real := 0.0,
    address: Option<string> := None)

  /** Angular width of each of the eight direction sectors, in degrees. */
  const SectorAngle: real := 45.0

  /** Half a sector: the distance from a sector's centre to its edges. */
  const HalfSector: real := SectorAngle / 2.0

  /** The eight labels in ascending order of their sector centres 0, 45, ..., 315. */
  const Labels: seq<string> := ["N", "NE", "E", "SE", "S", "SW", "W", "NW"]

  /** The current state of the compass: heading, last position fix and field strength (in micro-tesla). */
  datatype CompassState = CompassState(
    azimuth: real := 0.0,
    location: Location := Location(),
    magneticField: real := 0.0)
  {
    /**
     * The cardinal or intercardinal direction of the azimuth, tested guard by
     * guard in the order of the source: the wrapping North sector first, then
     * the closed ranges [c - 22.5, c + 22.5] for c = 45, 90, ..., 315.
     */
    function Direction(): (r: string)
      ensures r in Labels
      ensures r == "N" <==> (azimuth < HalfSector || azimuth >= 360.0 - HalfSector)
    {
      if azimuth >= 360.0 - HalfSector || azimuth < 0.0 + HalfSector then "N"
      else if 45.0 - HalfSector <= azimuth <= 45.0 + HalfSector then "NE"
      else if 90.0 - HalfSector <= azimuth <= 90.0 + HalfSector then "E"
      else if 135.0 - HalfSector <= azimuth <= 135.0 + HalfSector then "SE"
      else if 180.0 - HalfSector <= azimuth <= 180.0 + HalfSector then "S"
      else if 225.0 - HalfSector <= azimuth <= 225.0 + HalfSector then "SW"
      else if 270.0 - HalfSector <= azimuth <= 270.0 + HalfSector then "W"
      else if 315.0 - HalfSector <= azimuth <= 315.0 + HalfSector then "NW"
      else "N"
    }
  }

  /** The k-th guard of the classifier: guard 0 is the wrapping North test, guard k the closed range around 45k. */
  predicate Guard(k: nat, azimuth: real)
    requires k < 8
  {
    if k == 0 then azimuth >= 360.0 - HalfSector || azimuth < HalfSector
    else (k as real) * SectorAngle - HalfSector <= azimuth <= (k as real) * SectorAngle + HalfSector
  }

  /**
   * An arithmetic reference for the sector index: North outside [22.5, 337.5);
   * otherwise the sector whose closed range has x as its upper part, i.e. the
   * least k >= 1 with x <= 45k + 22.5.
   */
  function SectorOf(azimuth: real): (k: nat)
    ensures k < 8
  {
    if azimuth < HalfSector || azimuth >= 360.0 - HalfSector then 0
    else
      var c := Ceiling((azimuth - HalfSector) / SectorAngle);
      if c < 1 then 1 else c
  }

  /** SectorOf names the first guard, in source order, that the azimuth satisfies. */
  lemma SectorOfIsFirstGuard(azimuth: real)
    ensures Guard(SectorOf(azimuth), azimuth)
    ensures forall j :: 0 <= j < SectorOf(azimuth) ==> !Guard(j, azimuth)
  {
  }

  /** Every real azimuth satisfies one of the eight guards, so the final fallback is never taken. */
  lemma FallbackUnreachable(azimuth: real)
    ensures exists k :: 0 <= k < 8 && Guard(k, azimuth)
  {
    SectorOfIsFirstGuard(azimuth);
  }

  /** The classifier agrees with the arithmetic reference on every real azimuth. */
  lemma DirectionIsSectorLabel(s: CompassState)
    ensures s.Direction() == Labels[SectorOf(s.azimuth)]
  {
  }

  /** Each sector centre 45k is labelled with the k-th label. */
  lemma SectorCentres(k: nat)
    requires k < 8
    ensures CompassState(azimuth := (k as real) * SectorAngle).Direction() == Labels[k]
  {
  }

  /** Every sector is 45 degrees wide: each point strictly inside (45k - 22.5, 45k + 22.5) gets the k-th label. */
  lemma SectorInterior(k: nat, azimuth: real)
    requires 1 <= k < 8
    requires (k as real) * SectorAngle - HalfSector < azimuth < (k as real) * SectorAngle + HalfSector
    ensures CompassState(azimuth := azimuth).Direction() == Labels[k]
  {
  }

  /** A boundary 45k + 22.5 shared by two non-North sectors belongs to the lower one. */
  lemma SharedBoundaryGoesLower(k: nat)
    requires 1 <= k <= 6
    ensures CompassState(azimuth := (k as real) * SectorAngle + HalfSector).Direction() == Labels[k]
  {
  }

  /** The boundary and out-of-range values the unit tests pin down. */
  lemma TestedBoundaries()
    ensures CompassState(azimuth := 22.49).Direction() == "N"
    ensures CompassState(azimuth := 22.5).Direction() == "NE"
    ensures CompassState(azimuth := 67.49).Direction() == "NE"
    ensures CompassState(azimuth := 337.5).Direction() == "N"
    ensures CompassState(azimuth := 380.0).Direction() == "N"
    ensures CompassState(azimuth := -10.0).Direction() == "N"
  {
  }

  /** The default state: azimuth and field zero, the default location, heading North. */
  lemma DefaultState()
    ensures CompassState().azimuth == 0.0 && CompassState().magneticField == 0.0
    ensures CompassState().location == Location(0.0, 0.0, 0.0, false, 0.0, None)
    ensures CompassState().Direction() == "N"
  {
  }
}
