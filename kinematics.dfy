/** Kinematics and the distance-band speed table of main.py. Distances are
    nautical miles, speeds knots, times minutes; `real` is exact, and the
    source only uses + - * /, max and comparisons on these values. */
module Kinematics {
  import opened Options

  /** MIN_SEPARATION_MIN, BUFFER_MIN and REJOIN_GAP_MIN of main.py. */
  const MinSeparationMin: real := 4.0
  const BufferMin: real := 5.0
  const RejoinGapMin: real := 10.0
  /** The fixed decrement applied to the predecessor's speed. */
  const SpeedStep: real := 20.0
  /** Every aircraft enters the corridor at 100 nm. */
  const EntryDist: real := 100.0
  /** Outward speed of a rejoining aircraft, and the corridor's outer bound. */
  const RejoinSpeed: real := 200.0
  const OuterBound: real := 100.0
  /** (v_min, v_max) returned by main.py's get_range when no band matches. */
  const FallbackRange: (real, real) := (120.0, 150.0)

  /** A commanded speed. Every speed any variant assigns is positive, so an
      ETA computed from it is always defined. */
  type Knots = r: real | r > 0.0 witness 1.0

  /** A distance to the runway threshold; no update rule makes it negative. */
  type Nm = r: real | r >= 0.0

  function Max(a: real, b: real): (r: real)
    ensures r >= a && r >= b && (r == a || r == b)
  {
    if a >= b then a else b
  }

  /** knots_to_nm_per_min: the rate of closure in nm per minute. */
  function KnotsToNmPerMin(knots: real): (r: real)
    ensures r * 60.0 == knots
    ensures knots > 0.0 ==> r > 0.0
  {
    knots / 60.0
  }

  /** eta_minutes: minutes needed to fly `distNm` at `speedKnots`. The source
      divides by the speed, so a zero speed is excluded. */
  function EtaMinutes(distNm: real, speedKnots: real): (r: real)
    requires speedKnots != 0.0
    ensures r * speedKnots == distNm * 60.0
    ensures distNm >= 0.0 && speedKnots > 0.0 ==> r >= 0.0
  {
    distNm / KnotsToNmPerMin(speedKnots)
  }

  /** Slowing down never brings the arrival forward. */
  lemma {:induction false} EtaMonotone(d: real, v1: real, v2: real)
    requires d >= 0.0 && 0.0 < v1 <= v2
    ensures EtaMinutes(d, v2) <= EtaMinutes(d, v1)
  {
    var e1, e2 := EtaMinutes(d, v1), EtaMinutes(d, v2);
    assert e1 * v1 == e2 * v2;
    assert e1 * (v2 - v1) >= 0.0;
    assert (e1 - e2) * v2 >= 0.0;
  }

  /** The upper end of a band: inclusive bound, or float('inf'). */
  datatype Ceiling = AtMost(bound: real) | NoCeiling

  /** One row (r_min, r_max, v_min, v_max) of APPROACH_RANGES. */
  datatype Band = Band(above: real, upTo: Ceiling, vMin: real, vMax: real)

  /** The membership test `r_min < dist <= r_max`. */
  predicate Contains(b: Band, d: real)
  {
    b.above < d && (b.upTo.NoCeiling? || d <= b.upTo.bound)
  }

  const ApproachRanges: seq<Band> := [
    Band(100.0, NoCeiling, 300.0, 500.0),
    Band(50.0, AtMost(100.0), 250.0, 300.0),
    Band(15.0, AtMost(50.0), 200.0, 250.0),
    Band(5.0, AtMost(15.0), 150.0, 200.0),
    Band(0.0, AtMost(5.0), 120.0, 150.0)
  ]

  /** The index of the first band containing `d`, scanning in table order. */
  function FirstBand(bands: seq<Band>, d: real): (r: Option<nat>)
    ensures r.Some? ==> r.value < |bands| && Contains(bands[r.value], d)
    ensures r.Some? ==> forall k :: 0 <= k < r.value ==> !Contains(bands[k], d)
    ensures r.None? <==> forall k :: 0 <= k < |bands| ==> !Contains(bands[k], d)
  {
    if bands == [] then None
    else if Contains(bands[0], d) then Some(0)
    else match FirstBand(bands[1..], d)
      case None => None
      case Some(k) => Some(k + 1)
  }

  /** Which row of APPROACH_RANGES the scan stops at, for every distance. */
  lemma {:induction false} FirstBandOfTable(d: real)
    ensures FirstBand(ApproachRanges, d) ==
      if d > 100.0 then Some(0) else if d > 50.0 then Some(1)
      else if d > 15.0 then Some(2) else if d > 5.0 then Some(3)
      else if d > 0.0 then Some(4) else None
  {
    var r := FirstBand(ApproachRanges, d);
    assert Contains(ApproachRanges[0], d) <==> d > 100.0;
    assert Contains(ApproachRanges[1], d) <==> 50.0 < d <= 100.0;
    assert Contains(ApproachRanges[2], d) <==> 15.0 < d <= 50.0;
    assert Contains(ApproachRanges[3], d) <==> 5.0 < d <= 15.0;
    assert Contains(ApproachRanges[4], d) <==> 0.0 < d <= 5.0;
  }

  /** The band table written out as one case distinction on the distance. */
  function TableRange(d: real): (real, real)
  {
    if d > 100.0 then (300.0, 500.0)
    else if d > 50.0 then (250.0, 300.0)
    else if d > 15.0 then (200.0, 250.0)
    else if d > 5.0 then (150.0, 200.0)
    else (120.0, 150.0)
  }

  /** get_range of main.py: the bounds of the first band containing `d`,
      falling back to (120, 150) when none does (d <= 0). */
  function SpeedRange(d: real): (r: (real, real))
    ensures r == TableRange(d)
    ensures 120.0 <= r.0 <= r.1 <= 500.0
    ensures d <= 0.0 ==> r == FallbackRange
  {
    FirstBandOfTable(d);
    match FirstBand(ApproachRanges, d)
    case Some(k) => (ApproachRanges[k].vMin, ApproachRanges[k].vMax)
    case None => FallbackRange
  }

  /** get_min_speed and get_max_speed of main.py. */
  function MinSpeed(d: real): (v: Knots)
    ensures v == TableRange(d).0 && v <= MaxSpeed(d)
  {
    SpeedRange(d).0
  }

  function MaxSpeed(d: real): Knots
  {
    SpeedRange(d).1
  }

  /** get_range of ejercicio7.py: the same scan, but (None, None) when no
      band matches: there is no fallback band. */
  function BandRange(d: real): (r: Option<(real, real)>)
    ensures r.Some? <==> d > 0.0
    ensures r.Some? ==> r.value == SpeedRange(d)
  {
    FirstBandOfTable(d);
    match FirstBand(ApproachRanges, d)
    case Some(k) => Some((ApproachRanges[k].vMin, ApproachRanges[k].vMax))
    case None => None
  }

  /** The distance update of update_position: max(0, dist - speed/60 * dt). */
  function Advance(dist: real, speed: real, dt: int): (r: real)
    ensures r >= 0.0
    ensures r == 0.0 <==> KnotsToNmPerMin(speed) * (dt as real) >= dist
    ensures r > 0.0 ==> dist - r == KnotsToNmPerMin(speed) * (dt as real)
    ensures speed >= 0.0 && dt >= 0 && dist >= 0.0 ==> r <= dist
  {
    Max(0.0, dist - KnotsToNmPerMin(speed) * (dt as real))
  }
}
