/** simulate_planes_holding of ejercicio7.py: aircraft carry fuel, and
    aircraft the strict separation pass ejects enter a holding pattern
    between 10 and 15 nm instead of flying outward. Each minute every
    aircraft of the `holding` list flies one minute of the pattern at
    230 kt, diverts to Montevideo once its fuel no longer covers the trip,
    and otherwise rejoins the queue at the first 10-minute gap, at 10 nm.
    Arrivals are appended to the queue as created. */
module Holding {
  import opened Options
  import opened Kinematics
  import opened Queues
  import opened Aircraft
  import opened Fuel
  import opened Traffic
  import opened Ejection
  import opened Rejoin
  import opened Sweep
  import opened Intake

  const HoldInnerNm: real := 10.0
  const HoldOuterNm: real := 15.0
  const HoldSpeed: real := 230.0

  /** The distance at which a minute in the pattern starts: a distance
      outside [10, 15] is brought back to the nearer end, one inside it
      moves by the 5 nm leg of the racetrack, outbound or inbound as drawn. */
  function Racetrack(d: real, outbound: bool): (r: Nm)
    ensures 5.0 <= r <= 20.0
    ensures d > HoldOuterNm ==> r == HoldOuterNm
    ensures d < HoldInnerNm ==> r == HoldInnerNm
    ensures HoldInnerNm <= d <= HoldOuterNm ==> r == if outbound then d + 5.0 else d - 5.0
  {
    if d > HoldOuterNm then HoldOuterNm
    else if d < HoldInnerNm then HoldInnerNm
    else d + (if outbound then 1.0 else -1.0) * (HoldOuterNm - HoldInnerNm)
  }

  /** One minute in the pattern: the racetrack distance, 230 kt, and
      PlaneWithFuel.update_position(1, 230). The aircraft burns 45 kg and
      stays clear of the runway, so it keeps its status. */
  function Orbit(s: PlaneState, outbound: bool): (r: PlaneState)
    ensures r.status == s.status && r.speed == HoldSpeed && r.fuel == s.fuel - 45.0
    ensures r.dist == Racetrack(s.dist, outbound) - HoldSpeed / 60.0 && r.dist > 1.0
    ensures r.positions == s.positions + [(LastTime(s.positions) + 1, r.dist)]
    ensures r.landedTime == s.landedTime
    ensures Timed(KinOf(s)) ==> Timed(KinOf(r))
  {
    FuelAdvanced(s.(dist := Racetrack(s.dist, outbound), speed := HoldSpeed), 1)
  }

  /** Back in the queue: approaching, at 10 nm, with a sample at the same
      minute. */
  function Released(s: PlaneState): PlaneState
  {
    s.(status := Approaching, dist := HoldInnerNm,
       positions := s.positions + [(LastTime(s.positions), HoldInnerNm)])
  }

  /** One turn of the holding loop for aircraft `id`, whose draw of
      `random.choice([-1, 1])` is `outbound`: the traffic after it and
      whether the aircraft was diverted. */
  function HoldStep(t: int, outbound: bool, w: Traffic, id: int): (r: (Traffic, bool))
    requires Sound(w) && id in w.side
  {
    var s := Orbit(w.fleet[id], outbound);
    var w1 := w.(fleet := w.fleet[id := s]);
    if !CanReachMontevideo(s) then
      (w.(fleet := w.fleet[id := Divert(s, t)], side := RemoveFirst(w.side, id)), true)
    else
      match GapFor(t, w1)
      case None => (w1, false)
      case Some(j) =>
        (w.(fleet := w.fleet[id := Released(s)], queue := InsertAt(w.queue, j, id),
            side := RemoveFirst(w.side, id)), false)
  }

  /** A holding turn changes only aircraft `id`, and diverts it exactly
      when the minute leaves it less than the 720 kg the trip to Montevideo
      burns. */
  lemma {:induction false} HoldStepFrame(t: int, outbound: bool, w: Traffic, id: int)
    requires Sound(w) && id in w.side
    ensures var w' := HoldStep(t, outbound, w, id).0;
      && w'.fleet.Keys == w.fleet.Keys
      && (forall x :: x in w.fleet && x != id ==> w'.fleet[x] == w.fleet[x])
      && (w'.side == w.side || w'.side == RemoveFirst(w.side, id))
    ensures HoldStep(t, outbound, w, id).1 <==> w.fleet[id].fuel - 45.0 < 720.0
  {
  }

  /** Short of fuel after the minute: diverted to Montevideo at minute t,
      off the holding list, the queue untouched. */
  lemma {:induction false} HoldDivert(t: int, outbound: bool, w: Traffic, id: int)
    requires Sound(w) && id in w.side && w.fleet[id].fuel - 45.0 < 720.0
    ensures var s := Orbit(w.fleet[id], outbound);
      HoldStep(t, outbound, w, id) ==
        (Traffic(w.fleet[id := s.(status := Montevideo, montevideoTime := Some(t))], w.queue, RemoveFirst(w.side, id)), true)
  {
  }

  /** With fuel for the trip and j the first queue position whose landing
      time is at least 10 minutes after its predecessor's: inserted there,
      approaching at 10 nm. */
  lemma {:induction false} HoldReinsert(t: int, outbound: bool, w: Traffic, id: int, j: nat)
    requires Sound(w) && id in w.side && w.fleet[id].fuel - 45.0 >= 720.0
    requires 1 <= j < |w.queue|
    requires var times := QueueTimes(t, w); times[j] - times[j - 1] >= 10.0
    requires var times := QueueTimes(t, w); forall i :: 1 <= i < j ==> times[i] - times[i - 1] < 10.0
    ensures var s := Orbit(w.fleet[id], outbound);
      HoldStep(t, outbound, w, id) ==
        (Traffic(w.fleet[id := s.(status := Approaching, dist := HoldInnerNm,
                                    positions := s.positions + [(LastTime(s.positions), HoldInnerNm)])],
                 InsertAt(w.queue, j, id), RemoveFirst(w.side, id)), false)
  {
    var s := Orbit(w.fleet[id], outbound);
    assert id !in w.queue;
    FleetTimedIn(w.fleet, w.queue);
    LandingTimesOff(t, w.fleet, w.queue, id, s);
    assert QueueTimes(t, w.(fleet := w.fleet[id := s])) == QueueTimes(t, w);
  }

  /** With fuel for the trip and no such gap: one more minute in the
      pattern, still on the holding list. */
  lemma {:induction false} HoldStay(t: int, outbound: bool, w: Traffic, id: int)
    requires Sound(w) && id in w.side && w.fleet[id].fuel - 45.0 >= 720.0
    requires var times := QueueTimes(t, w); forall i :: 1 <= i < |w.queue| ==> times[i] - times[i - 1] < 10.0
    ensures HoldStep(t, outbound, w, id) == (w.(fleet := w.fleet[id := Orbit(w.fleet[id], outbound)]), false)
  {
    var s := Orbit(w.fleet[id], outbound);
    assert id !in w.queue;
    FleetTimedIn(w.fleet, w.queue);
    LandingTimesOff(t, w.fleet, w.queue, id, s);
    assert QueueTimes(t, w.(fleet := w.fleet[id := s])) == QueueTimes(t, w);
  }

  /** A holding turn keeps the traffic sound. */
  lemma {:induction false} HoldStepSound(t: int, outbound: bool, w: Traffic, id: int)
    requires Sound(w) && id in w.side
    ensures Sound(HoldStep(t, outbound, w, id).0)
  {
    assert id !in w.queue;
    var s := Orbit(w.fleet[id], outbound);
    var w1 := w.(fleet := w.fleet[id := s]);
    SoundUpdate(w, id, s);
    if CanReachMontevideo(s) {
      match GapFor(t, w1)
      case None =>
      case Some(j) =>
        var r := Released(s);
        SoundUpdate(w, id, r);
        var w2 := w.(fleet := w.fleet[id := r]);
        SoundLeave(w2, id);
        SoundJoin(w2.(side := RemoveFirst(w.side, id)), id, j);
    } else {
      SoundUpdate(w, id, Divert(s, t));
      SoundLeave(w.(fleet := w.fleet[id := Divert(s, t)]), id);
    }
  }

  /** A holding turn moves the counted aircraft between classes as the
      lists move: a diverted aircraft leaves the holding list and is one
      more in Montevideo, a released one joins the queue. */
  lemma {:induction false} HoldStepTally(t: int, outbound: bool, w: Traffic, id: int, landed: nat, diverted: nat)
    requires Tallied(w, Holding, landed, diverted) && id in w.side
    ensures var (w', d) := HoldStep(t, outbound, w, id);
      Tallied(w', Holding, landed, diverted + if d then 1 else 0)
  {
    assert id in Members(w.side);
    var s := Orbit(w.fleet[id], outbound);
    if w.fleet[id].fuel - 45.0 < 720.0 {
      HoldDivert(t, outbound, w, id);
      TallyDivert(w, Holding, landed, diverted, id, s.(status := Montevideo, montevideoTime := Some(t)));
    } else {
      match FirstGap(QueueTimes(t, w), RejoinGapMin)
      case None =>
        HoldStay(t, outbound, w, id);
        TallyStay(w, Holding, landed, diverted, id, s);
      case Some(j) =>
        HoldReinsert(t, outbound, w, id, j);
        TallyJoin(w, Holding, landed, diverted, id, Released(s), j);
    }
  }

  /** `for plane in holding[:]`: the turns of the first n aircraft of the
      snapshot, each with its own draw `outbound(id)`, and how many were
      diverted. As in the rejoin pass, a turn is taken only while the
      aircraft is `Waiting`, which HoldFromSound shows is always so. */
  function HoldFrom(t: int, outbound: int -> bool, w: Traffic, snap: seq<int>, n: nat): (Traffic, nat)
    requires n <= |snap|
  {
    if n == 0 then (w, 0)
    else
      var p := HoldFrom(t, outbound, w, snap, n - 1);
      if Waiting(p.0, snap[n - 1]) then
        var q := HoldStep(t, outbound(snap[n - 1]), p.0, snap[n - 1]);
        (q.0, p.1 + if q.1 then 1 else 0)
      else p
  }

  lemma {:induction false} HoldTurnSound(t: int, outbound: bool, w: Traffic, snap: seq<int>, n: nat)
    requires Sound(w) && Distinct(snap) && 0 < n <= |snap|
    requires forall k :: n - 1 <= k < |snap| ==> snap[k] in w.side
    ensures var w' := HoldStep(t, outbound, w, snap[n - 1]).0;
      Sound(w') && w'.fleet.Keys == w.fleet.Keys
      && forall k :: n <= k < |snap| ==> snap[k] in w'.side
  {
    HoldStepSound(t, outbound, w, snap[n - 1]);
    HoldStepFrame(t, outbound, w, snap[n - 1]);
    StillWaiting(w.side, HoldStep(t, outbound, w, snap[n - 1]).0.side, snap, n);
  }

  /** Every turn of the pass is taken: the traffic stays sound and the
      aircraft not yet handled are still holding. */
  lemma {:induction false} HoldFromSound(t: int, outbound: int -> bool, w: Traffic, snap: seq<int>, n: nat)
    requires Sound(w) && Distinct(snap) && n <= |snap|
    requires forall k :: 0 <= k < |snap| ==> snap[k] in w.side
    ensures var r := HoldFrom(t, outbound, w, snap, n);
      Sound(r.0) && r.1 <= n && r.0.fleet.Keys == w.fleet.Keys
      && forall k :: n <= k < |snap| ==> snap[k] in r.0.side
  {
    if n > 0 {
      HoldFromSound(t, outbound, w, snap, n - 1);
      HoldTurnSound(t, outbound(snap[n - 1]), HoldFrom(t, outbound, w, snap, n - 1).0, snap, n);
    }
  }

  /** The whole holding pass keeps the tally: the Montevideo count grows by
      the number of diverted aircraft. */
  lemma {:induction false} HoldFromTally(t: int, outbound: int -> bool, w: Traffic, snap: seq<int>, n: nat, landed: nat, diverted: nat)
    requires Tallied(w, Holding, landed, diverted) && Distinct(snap) && n <= |snap|
    requires forall k :: 0 <= k < |snap| ==> snap[k] in w.side
    ensures var r := HoldFrom(t, outbound, w, snap, n); Tallied(r.0, Holding, landed, diverted + r.1)
  {
    if n > 0 {
      HoldFromTally(t, outbound, w, snap, n - 1, landed, diverted);
      HoldFromSound(t, outbound, w, snap, n - 1);
      var p := HoldFrom(t, outbound, w, snap, n - 1);
      HoldStepTally(t, outbound(snap[n - 1]), p.0, snap[n - 1], landed, diverted + p.1);
    }
  }

  /** On a snapshot of the holding list the turn of aircraft i is taken. */
  lemma {:induction false} HoldFromNext(t: int, outbound: int -> bool, w0: Traffic, i: nat)
    requires Sound(w0) && i < |w0.side|
    ensures var p := HoldFrom(t, outbound, w0, w0.side, i);
      && Waiting(p.0, w0.side[i])
      && var q := HoldStep(t, outbound(w0.side[i]), p.0, w0.side[i]);
         HoldFrom(t, outbound, w0, w0.side, i + 1) == (q.0, p.1 + if q.1 then 1 else 0)
  {
    HoldFromSound(t, outbound, w0, w0.side, i);
  }

  /** The body of the holding loop for one aircraft. */
  method HoldOne(t: int, outbound: bool, w: Traffic, id: int) returns (w': Traffic, diverted: bool)
    requires Sound(w) && id in w.side
    ensures (w', diverted) == HoldStep(t, outbound, w, id)
  {
    var p := w.fleet[id];
    var d := Racetrack(p.dist, outbound);
    var s := FuelAdvanced(p.(dist := d, speed := HoldSpeed), 1);
    if !CanReachMontevideo(s) {
      w' := Traffic(w.fleet[id := Divert(s, t)], w.queue, RemoveFirst(w.side, id));
      diverted := true;
      return;
    }
    w' := w.(fleet := w.fleet[id := s]);
    diverted := false;
    var gap := FindGap(t, w');
    if gap.Some? {
      w' := Traffic(w.fleet[id := Released(s)], InsertAt(w.queue, gap.value, id), RemoveFirst(w.side, id));
    }
  }

  method HoldPassStep(t: int, outbound: int -> bool, ghost w0: Traffic, i: nat, id: int, w: Traffic, diverted: nat)
    returns (w': Traffic, diverted': nat)
    requires Sound(w0) && i < |w0.side| && id == w0.side[i]
    requires (w, diverted) == HoldFrom(t, outbound, w0, w0.side, i)
    ensures (w', diverted') == HoldFrom(t, outbound, w0, w0.side, i + 1)
  {
    HoldFromNext(t, outbound, w0, i);
    var d;
    w', d := HoldOne(t, outbound(id), w, id);
    diverted' := diverted + if d then 1 else 0;
  }

  /** The holding pass over a snapshot of the holding list. */
  method HoldPass(t: int, outbound: int -> bool, w0: Traffic) returns (w: Traffic, diverted: nat)
    requires Sound(w0)
    ensures (w, diverted) == HoldFrom(t, outbound, w0, w0.side, |w0.side|)
  {
    var snap := w0.side;
    w, diverted := w0, 0;
    var i := 0;
    while i < |snap|
      invariant 0 <= i <= |snap|
      invariant (w, diverted) == HoldFrom(t, outbound, w0, w0.side, i)
    {
      w, diverted := HoldPassStep(t, outbound, w0, i, snap[i], w, diverted);
      i := i + 1;
    }
  }

  /** What the run keeps between minutes: the keys of the fleet are the
      ids 1..nextId-1, the queue holds the approaching aircraft and the
      `holding` list the aircraft in the pattern, and no aircraft is ever in
      the rejoin status. */
  predicate HoldInvariant(w: Traffic, nextId: int)
  {
    && nextId >= 1 && w.fleet.Keys == Members(Ids(nextId - 1))
    && Tallied(w, Holding, |WithStatus(w.fleet, Landed)|, |WithStatus(w.fleet, Montevideo)|)
  }

  /** The draws PlaneWithFuel makes: a speed in [300, 500] and a share of a
      full tank in [0.5, 0.9]. */
  predicate FuelDraws(d: (real, real))
  {
    300.0 <= d.0 <= 500.0 && 0.5 <= d.1 <= 0.9
  }

  /** The intake: an arriving aircraft gets id `nextId`. */
  function HoldIntake(t: int, arrival: Option<(real, real)>, w: Traffic, nextId: int): Traffic
    requires Sound(w) && (arrival.Some? ==> FuelDraws(arrival.value))
  {
    match arrival
    case None => w
    case Some(d) => Admitted(w, nextId, FuelArrival(nextId, t, d.0, d.1), false)
  }

  lemma {:induction false} HoldIntakeKeeps(t: int, arrival: Option<(real, real)>, w: Traffic, nextId: int)
    requires HoldInvariant(w, nextId) && (arrival.Some? ==> FuelDraws(arrival.value))
    ensures nextId !in w.fleet
    ensures HoldInvariant(HoldIntake(t, arrival, w, nextId), if arrival.Some? then nextId + 1 else nextId)
  {
    var L, M := |WithStatus(w.fleet, Landed)|, |WithStatus(w.fleet, Montevideo)|;
    if arrival.Some? {
      var d := arrival.value;
      AdmitNext(w, nextId, FuelArrival(nextId, t, d.0, d.1), false, Holding, L, M);
    } else {
      AdmitNext(w, nextId, Arrival(nextId, t), false, Holding, L, M);
    }
  }

  lemma {:induction false} SeparatedKeeps(t: int, w: Traffic, nextId: int)
    requires HoldInvariant(w, nextId)
    ensures HoldInvariant(Separated(true, t, Holding, w), nextId)
  {
    SeparatedTally(true, t, Holding, w, |WithStatus(w.fleet, Landed)|, |WithStatus(w.fleet, Montevideo)|);
    SeparatedGrows(true, t, Holding, w);
  }

  lemma {:induction false} HeldKeeps(t: int, outbound: int -> bool, w: Traffic, nextId: int)
    requires HoldInvariant(w, nextId)
    ensures HoldInvariant(HoldFrom(t, outbound, w, w.side, |w.side|).0, nextId)
  {
    HoldFromSound(t, outbound, w, w.side, |w.side|);
    HoldFromTally(t, outbound, w, w.side, |w.side|, |WithStatus(w.fleet, Landed)|, |WithStatus(w.fleet, Montevideo)|);
  }

  lemma {:induction false} BurnedKeeps(t: int, w: Traffic, nextId: int)
    requires HoldInvariant(w, nextId)
    ensures HoldInvariant(Swept(Burning, t, w), nextId)
  {
    SweptTally(Burning, t, w, Holding, |WithStatus(w.fleet, Landed)|, |WithStatus(w.fleet, Montevideo)|);
    SweptEvery(Burning, t, w);
  }

  /** One minute of simulate_planes_holding: the traffic after it and the
      next id. */
  function HoldTick(t: int, arrival: Option<(real, real)>, outbound: int -> bool, w: Traffic, nextId: int): (r: (Traffic, int))
    requires HoldInvariant(w, nextId) && (arrival.Some? ==> FuelDraws(arrival.value))
    ensures HoldInvariant(r.0, r.1) && r.1 == if arrival.Some? then nextId + 1 else nextId
  {
    HoldIntakeKeeps(t, arrival, w, nextId);
    var n1 := if arrival.Some? then nextId + 1 else nextId;
    var w1 := HoldIntake(t, arrival, w, nextId);
    SeparatedKeeps(t, w1, n1);
    var w2 := Separated(true, t, Holding, w1);
    HeldKeeps(t, outbound, w2, n1);
    var w3 := HoldFrom(t, outbound, w2, w2.side, |w2.side|).0;
    BurnedKeeps(t, w3, n1);
    (Swept(Burning, t, w3), n1)
  }

  /** Every arrival draw is in range. */
  predicate ArrivalDraws(arrivals: seq<Option<(real, real)>>)
  {
    forall k :: 0 <= k < |arrivals| && arrivals[k].Some? ==> FuelDraws(arrivals[k].value)
  }

  /** The first n minutes of the run: `arrivals[t]` is None when no
      aircraft appears at minute t and holds the new aircraft's draws
      otherwise, `outbound(t, id)` is the racetrack draw of aircraft id at
      minute t. */
  function HoldRun(arrivals: seq<Option<(real, real)>>, outbound: (int, int) -> bool, n: nat): (r: (Traffic, int))
    requires ArrivalDraws(arrivals) && n <= |arrivals|
    ensures HoldInvariant(r.0, r.1)
  {
    if n == 0 then
      assert Ids(0) == [];
      (Traffic(map[], [], []), 1)
    else
      var p := HoldRun(arrivals, outbound, n - 1);
      HoldTick(n - 1, arrivals[n - 1], id => outbound(n - 1, id), p.0, p.1)
  }

  /** At the end of the run every aircraft is approaching, holding, landed
      or diverted, and exactly one of these; none is ever in the rejoin
      status; there is one aircraft per id handed out. */
  lemma {:induction false} HoldRunOutcome(arrivals: seq<Option<(real, real)>>, outbound: (int, int) -> bool)
    requires ArrivalDraws(arrivals)
    ensures var (w, next) := HoldRun(arrivals, outbound, |arrivals|);
      && WithStatus(w.fleet, Rejoin) == {}
      && |w.fleet.Keys| == |w.queue| + |w.side| + |WithStatus(w.fleet, Landed)| + |WithStatus(w.fleet, Montevideo)|
      && |w.fleet.Keys| == next - 1
  {
    var (w, next) := HoldRun(arrivals, outbound, |arrivals|);
    Conservation(w, Holding, |WithStatus(w.fleet, Landed)|, |WithStatus(w.fleet, Montevideo)|);
    IdsNext(next - 1);
    DistinctCard(Ids(next - 1));
  }

  /** The intake of ejercicio7.py: create the aircraft and append it to the
      aircraft list and the queue. */
  method TakeFuelArrival(t: int, arrival: Option<(real, real)>, w: Traffic, planes: seq<int>, nextId: int)
    returns (w': Traffic, planes': seq<int>, nextId': int)
    requires Sound(w) && nextId >= 1 && planes == Ids(nextId - 1) && (arrival.Some? ==> FuelDraws(arrival.value))
    ensures w' == HoldIntake(t, arrival, w, nextId)
    ensures nextId' == if arrival.Some? then nextId + 1 else nextId
    ensures planes' == Ids(nextId' - 1)
  {
    IdsNext(nextId - 1);
    w', planes', nextId' := w, planes, nextId;
    if arrival.Some? {
      var d := arrival.value;
      w' := Admit(w, nextId, FuelArrival(nextId, t, d.0, d.1), false);
      planes' := planes + [nextId];
      nextId' := nextId + 1;
    }
  }

  /** One iteration of `for t in range(total_minutes)`. */
  method HoldMinute(t: int, arrival: Option<(real, real)>, outbound: int -> bool, w: Traffic, planes: seq<int>, nextId: int)
    returns (w': Traffic, planes': seq<int>, nextId': int)
    requires HoldInvariant(w, nextId) && planes == Ids(nextId - 1) && (arrival.Some? ==> FuelDraws(arrival.value))
    ensures (w', nextId') == HoldTick(t, arrival, outbound, w, nextId) && planes' == Ids(nextId' - 1)
  {
    HoldIntakeKeeps(t, arrival, w, nextId);
    var w1;
    w1, planes', nextId' := TakeFuelArrival(t, arrival, w, planes, nextId);
    SeparatedKeeps(t, w1, nextId');
    var w2 := SeparateAndRemove(true, t, Holding, w1);
    HeldKeeps(t, outbound, w2, nextId');
    var w3, diverted := HoldPass(t, outbound, w2);
    BurnedKeeps(t, w3, nextId');
    var landed, touched;
    w', landed, touched := SweepAndRemove(Burning, t, w3);
  }

  /** simulate_planes_holding with the draws given. It returns the
      aircraft (as the fleet and the id list) and the number of minutes. */
  method SimulatePlanesHolding(arrivals: seq<Option<(real, real)>>, outbound: (int, int) -> bool)
    returns (fleet: Fleet, planes: seq<int>, totalMinutes: nat)
    requires ArrivalDraws(arrivals)
    ensures totalMinutes == |arrivals|
    ensures var (w, next) := HoldRun(arrivals, outbound, |arrivals|); fleet == w.fleet && planes == Ids(next - 1)
    ensures fleet.Keys == Members(planes) && Distinct(planes)
  {
    var w := Traffic(map[], [], []);
    var nextId := 1;
    planes := [];
    assert Ids(0) == [];
    var t := 0;
    while t < |arrivals|
      invariant t <= |arrivals|
      invariant (w, nextId) == HoldRun(arrivals, outbound, t) && planes == Ids(nextId - 1)
    {
      w, planes, nextId := HoldMinute(t, arrivals[t], id => outbound(t, id), w, planes, nextId);
      t := t + 1;
    }
    fleet, totalMinutes := w.fleet, |arrivals|;
    IdsNext(nextId - 1);
  }
}
