/** The aircraft record of main.py (class Plane), with the extra fields of
    its two subclasses, PlaneVentoso (Ejercicio5/simulador_ventoso.py) and
    PlaneTormenta (ejercicio6.py, Ejercicio6/ejercicio6.py), and of
    PlaneWithFuel (ejercicio7.py). The subclasses only add zero-initialised
    fields and one method, so one class carries them all; PlaneWithFuel has
    its own class in module Fuel. Every method is specified by a function on
    PlaneState, the value of all the fields. The schedulers keep their
    aircraft in a Fleet, a map from id to state: the id stands for the
    object, and a list of aircraft is a list of ids. */
module Aircraft {
  import opened Options
  import opened Kinematics

  /** 'approaching', 'rejoin', 'holding', 'landed', 'montevideo'. */
  datatype Status = Approaching | Rejoin | Holding | Landed | Montevideo

  /** A position history: (minute, distance) samples. It starts with one
      sample and is only ever appended to. */
  type Track = s: seq<(int, real)> | |s| > 0 witness [(0, 0.0)]

  function LastTime(track: Track): int
  {
    track[|track| - 1].0
  }

  /** What the landing-time projection and the separation test read of an
      aircraft: its status, distance, speed and recorded landing minute. */
  datatype Kin = Kin(status: Status, dist: Nm, speed: Knots, landedTime: Option<int>)

  /** A landed aircraft has a landing minute: the projection below is then
      defined (the source would fail on `None` otherwise). */
  predicate Timed(k: Kin)
  {
    k.status == Landed ==> k.landedTime.Some?
  }

  /** prev_time_to_land: the landing minute of an aircraft seen from minute
      t, its recorded landing time once landed and a projection from its
      distance and speed otherwise. */
  function LandingTime(t: int, k: Kin): (r: real)
    requires Timed(k)
    ensures k.status != Landed ==> r >= t as real
    ensures k.status != Landed ==> (r - t as real) * k.speed == k.dist * 60.0
    ensures k.status == Landed ==> r == k.landedTime.value as real
  {
    if k.status != Landed then t as real + EtaMinutes(k.dist, k.speed)
    else k.landedTime.value as real
  }

  /** The landing test of update_position. */
  predicate Touchdown(before: Status, newDist: real)
  {
    newDist == 0.0 && before != Landed
  }

  /** The draw of intentar_aterrizaje interrupts the landing below 0.1. */
  const InterruptionProbability: real := 0.1

  predicate Interrupted(draw: real)
  {
    draw < InterruptionProbability
  }

  /** All fields of an aircraft. rejoin_start_time and rejoin_dist are
      attributes the source creates when the aircraft first leaves the
      queue; here they start as None and 0. */
  datatype PlaneState = PlaneState(
    id: int, appearTime: int,
    dist: Nm, status: Status, speed: Knots, positions: Track,
    landedTime: Option<int>, montevideoTime: Option<int>,
    rejoinStartTime: Option<int>, rejoinDist: Nm,
    interruptions: nat, inInterruption: bool,
    closureWait: nat, stormAffected: bool,
    fuel: real, holdingStartTime: Option<int>)

  function KinOf(s: PlaneState): Kin
  {
    Kin(s.status, s.dist, s.speed, s.landedTime)
  }

  /** Plane(id, appear_time): at the corridor entry, approaching, at the top
      speed of its band, with one position sample and nothing recorded. */
  function Arrival(id: int, appearTime: int): (s: PlaneState)
    ensures s.id == id && s.appearTime == appearTime
    ensures s.dist == EntryDist && s.status == Approaching && s.speed == 300.0
    ensures s.positions == [(appearTime, EntryDist)]
    ensures s.landedTime.None? && s.montevideoTime.None? && s.rejoinStartTime.None?
    ensures s.interruptions == 0 && !s.inInterruption && s.closureWait == 0 && !s.stormAffected
  {
    PlaneState(id, appearTime, EntryDist, Approaching, MaxSpeed(EntryDist), [(appearTime, EntryDist)],
               None, None, None, 0.0, 0, false, 0, false, 0.0, None)
  }

  /** update_position(dt) on the state: close in by speed/60 * dt, never
      past the runway; append one sample; land on reaching exactly 0, with
      the new sample's minute as landing time. */
  function Advanced(s: PlaneState, dt: int): (r: PlaneState)
    ensures dt >= 0 ==> r.dist <= s.dist
    ensures r.positions == s.positions + [(LastTime(s.positions) + dt, r.dist)]
    ensures r.status == Landed <==> s.status == Landed || r.dist == 0.0
    ensures r.status != Landed ==> r.status == s.status
    ensures s.status != Landed && r.status == Landed ==> r.landedTime == Some(LastTime(r.positions))
    ensures s.status == Landed ==> r.landedTime == s.landedTime
    ensures Timed(KinOf(s)) ==> Timed(KinOf(r))
    ensures r.(dist := s.dist, positions := s.positions, status := s.status, landedTime := s.landedTime) == s
  {
    var d: Nm := Advance(s.dist, s.speed, dt);
    var track: Track := s.positions + [(LastTime(s.positions) + dt, d)];
    if Touchdown(s.status, d) then
      s.(dist := d, positions := track, status := Landed, landedTime := Some(LastTime(track)))
    else s.(dist := d, positions := track)
  }

  class Plane {
    const id: int
    const appearTime: int
    var dist: Nm
    var status: Status
    var speed: Knots
    var positions: Track
    var landedTime: Option<int>
    var montevideoTime: Option<int>
    var rejoinStartTime: Option<int>
    var rejoinDist: Nm
    /** PlaneVentoso: interrupted landings, and the "shown in yellow" flag. */
    var interruptions: nat
    var inInterruption: bool
    /** PlaneTormenta: minutes waited during a closure, and whether it was. */
    var closureWait: nat
    var stormAffected: bool

    constructor (id: int, appearTime: int)
      ensures StateOf(this) == Arrival(id, appearTime)
    {
      this.id := id;
      this.appearTime := appearTime;
      dist := EntryDist;
      status := Approaching;
      speed := MaxSpeed(EntryDist);
      positions := [(appearTime, EntryDist)];
      landedTime := None;
      montevideoTime := None;
      rejoinStartTime := None;
      rejoinDist := 0.0;
      interruptions := 0;
      inInterruption := false;
      closureWait := 0;
      stormAffected := false;
    }

    /** update_position(dt). */
    method UpdatePosition(dt: int)
      modifies this`dist, this`positions, this`status, this`landedTime
      ensures StateOf(this) == Advanced(old(StateOf(this)), dt)
    {
      dist := Advance(dist, speed, dt);
      positions := positions + [(LastTime(positions) + dt, dist)];
      if dist == 0.0 && status != Landed {
        status := Landed;
        landedTime := Some(LastTime(positions));
      }
    }

    /** PlaneVentoso.intentar_aterrizaje, with the uniform draw passed in:
        the landing fails exactly when the draw is below 0.1, and only then
        is the interruption counted. */
    method TryLanding(draw: real) returns (ok: bool)
      modifies this`interruptions
      ensures ok <==> !Interrupted(draw)
      ensures StateOf(this) == old(StateOf(this)).(interruptions := old(interruptions) + if ok then 0 else 1)
    {
      if draw < InterruptionProbability {
        interruptions := interruptions + 1;
        ok := false;
      } else {
        ok := true;
      }
    }
  }

  function StateOf(p: Plane): PlaneState
    reads p
  {
    PlaneState(p.id, p.appearTime, p.dist, p.status, p.speed, p.positions,
               p.landedTime, p.montevideoTime, p.rejoinStartTime, p.rejoinDist,
               p.interruptions, p.inInterruption, p.closureWait, p.stormAffected, 0.0, None)
  }

  /** The aircraft of a simulation, by id. */
  type Fleet = map<int, PlaneState>

  /** Every aircraft named in `ids` is in the fleet. */
  predicate Listed(fleet: Fleet, ids: seq<int>)
  {
    forall k :: 0 <= k < |ids| ==> ids[k] in fleet
  }

  /** Every landed aircraft of the fleet has a landing minute. */
  predicate FleetTimed(fleet: Fleet)
  {
    forall id :: id in fleet ==> Timed(KinOf(fleet[id]))
  }

  /** Every landed aircraft named in `ids` has a landing minute. */
  predicate TimedIn(fleet: Fleet, ids: seq<int>)
    requires Listed(fleet, ids)
  {
    forall k :: 0 <= k < |ids| ==> Timed(KinOf(fleet[ids[k]]))
  }

  lemma {:induction false} FleetTimedIn(fleet: Fleet, ids: seq<int>)
    requires Listed(fleet, ids) && FleetTimed(fleet)
    ensures TimedIn(fleet, ids)
  {
    forall k | 0 <= k < |ids| ensures Timed(KinOf(fleet[ids[k]])) {
      var id := ids[k];
      assert id in fleet;
    }
  }

  /** The aircraft of `ids`, as the projection reads them. */
  function KinsIn(fleet: Fleet, ids: seq<int>): (r: seq<Kin>)
    requires Listed(fleet, ids)
    ensures |r| == |ids| && forall k :: 0 <= k < |ids| ==> r[k] == KinOf(fleet[ids[k]])
  {
    seq(|ids|, k requires 0 <= k < |ids| => KinOf(fleet[ids[k]]))
  }

  /** Landing times of a queue at minute t, as the gap search sees them. */
  function LandingTimes(t: int, fleet: Fleet, ids: seq<int>): (r: seq<real>)
    requires Listed(fleet, ids) && TimedIn(fleet, ids)
    ensures |r| == |ids|
    ensures forall k :: 0 <= k < |ids| ==> r[k] == LandingTime(t, KinOf(fleet[ids[k]]))
  {
    seq(|ids|, k requires 0 <= k < |ids| => LandingTime(t, KinOf(fleet[ids[k]])))
  }

  /** The aircraft of the fleet in status `st`. */
  function WithStatus(fleet: Fleet, st: Status): set<int>
  {
    set id | id in fleet && fleet[id].status == st
  }

  /** A new aircraft joins exactly the class of its status. */
  lemma {:induction false} WithStatusAdd(fleet: Fleet, id: int, s: PlaneState, st: Status)
    requires id !in fleet
    ensures WithStatus(fleet[id := s], st) == WithStatus(fleet, st) + (if s.status == st then {id} else {})
  {
  }

  /** Replacing one aircraft's state moves it, at most, between two status
      classes; the others keep their members. */
  lemma {:induction false} WithStatusUpdate(fleet: Fleet, id: int, s: PlaneState, st: Status)
    requires id in fleet
    ensures WithStatus(fleet[id := s], st) ==
      (WithStatus(fleet, st) - {id}) + (if s.status == st then {id} else {})
  {
  }
}
