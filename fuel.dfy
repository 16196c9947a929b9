/** PlaneWithFuel of ejercicio7.py: an aircraft with a fuel load, which the
    holding variant uses instead of Plane. It is not a subclass of Plane; its
    state is the same record, with the fuel field in use. */
module Fuel {
  import opened Options
  import opened Kinematics
  import opened Aircraft

  const FuelCapacityKg: real := 20800.0
  const FuelBurnKgPerHour: real := 2700.0
  const FuelBurnKgPerMin: real := FuelBurnKgPerHour / 60.0
  /** Distance to Montevideo from the holding pattern, and the cruise speed
      to get there. */
  const DistToMvd: real := 120.0
  const SpeedToMvd: real := 450.0

  /** can_reach_montevideo's threshold: the fuel burnt flying 120 nm at
      450 kt, which is 16 minutes at 45 kg/min. */
  function FuelNeeded(): (r: real)
    ensures r == 720.0
  {
    EtaMinutes(DistToMvd, SpeedToMvd) * FuelBurnKgPerMin
  }

  predicate CanReachMontevideo(s: PlaneState)
  {
    s.fuel >= FuelNeeded()
  }

  /** PlaneWithFuel(id, appear_time) with its two uniform draws passed in:
      the speed, drawn from [300, 500], and the share of a full tank, drawn
      from [0.5, 0.9]. */
  function FuelArrival(id: int, appearTime: int, speed: real, share: real): (s: PlaneState)
    requires 300.0 <= speed <= 500.0 && 0.5 <= share <= 0.9
    ensures s.id == id && s.appearTime == appearTime
    ensures s.dist == EntryDist && s.status == Approaching && s.speed == speed
    ensures s.positions == [(appearTime, EntryDist)]
    ensures s.landedTime.None? && s.montevideoTime.None? && s.holdingStartTime.None?
    ensures s.fuel == share * FuelCapacityKg && 10400.0 <= s.fuel <= 18720.0
  {
    PlaneState(id, appearTime, EntryDist, Approaching, speed, [(appearTime, EntryDist)],
               None, None, None, 0.0, 0, false, 0, false, share * FuelCapacityKg, None)
  }

  /** update_position(dt) of PlaneWithFuel: main.py's update plus a burn of
      45 kg per minute. */
  function FuelAdvanced(s: PlaneState, dt: int): (r: PlaneState)
    ensures r.fuel == s.fuel - 45.0 * dt as real
    ensures r.(fuel := s.fuel) == Advanced(s, dt)
  {
    Advanced(s, dt).(fuel := s.fuel - FuelBurnKgPerMin * dt as real)
  }

  /** A fresh aircraft has at least 10400 kg and so can reach Montevideo,
      and each minute of flight burns 45 kg of it. */
  lemma {:induction false} ArrivalCanReach(id: int, appearTime: int, speed: real, share: real)
    requires 300.0 <= speed <= 500.0 && 0.5 <= share <= 0.9
    ensures CanReachMontevideo(FuelArrival(id, appearTime, speed, share))
  {
  }

  class FuelPlane {
    const id: int
    const appearTime: int
    var dist: Nm
    var status: Status
    var speed: Knots
    var positions: Track
    var landedTime: Option<int>
    var montevideoTime: Option<int>
    var holdingStartTime: Option<int>
    var fuel: real

    constructor (id: int, appearTime: int, speed: real, share: real)
      requires 300.0 <= speed <= 500.0 && 0.5 <= share <= 0.9
      ensures FuelStateOf(this) == FuelArrival(id, appearTime, speed, share)
    {
      this.id := id;
      this.appearTime := appearTime;
      dist := EntryDist;
      status := Approaching;
      this.speed := speed;
      positions := [(appearTime, EntryDist)];
      landedTime := None;
      montevideoTime := None;
      holdingStartTime := None;
      fuel := share * FuelCapacityKg;
    }

    /** get_range: Some band bounds, or None for (None, None). */
    method GetRange() returns (r: Option<(real, real)>)
      ensures r == BandRange(dist)
    {
      r := BandRange(dist);
    }

    /** update_position(dt). */
    method UpdatePosition(dt: int)
      modifies this`fuel, this`dist, this`positions, this`status, this`landedTime
      ensures FuelStateOf(this) == FuelAdvanced(old(FuelStateOf(this)), dt)
    {
      fuel := fuel - FuelBurnKgPerMin * dt as real;
      dist := Advance(dist, speed, dt);
      positions := positions + [(LastTime(positions) + dt, dist)];
      if dist == 0.0 && status != Landed {
        status := Landed;
        landedTime := Some(LastTime(positions));
      }
    }

    method CanReach() returns (b: bool)
      ensures b <==> fuel >= 720.0
      ensures b <==> CanReachMontevideo(FuelStateOf(this))
    {
      var timeToMvd := EtaMinutes(DistToMvd, SpeedToMvd);
      b := fuel >= timeToMvd * FuelBurnKgPerMin;
    }
  }

  /** The state of a PlaneWithFuel as an aircraft record; the fields it does
      not have take their initial values. */
  function FuelStateOf(p: FuelPlane): PlaneState
    reads p
  {
    PlaneState(p.id, p.appearTime, p.dist, p.status, p.speed, p.positions,
               p.landedTime, p.montevideoTime, None, 0.0, 0, false, 0, false, p.fuel, p.holdingStartTime)
  }
}
