/** The rejoin pass (Ejercicio1/simulador.py, Ejercicio5/simulador_ventoso.py,
    ejercicio6.py, Ejercicio6/ejercicio6.py): every aircraft of the rejoin
    list flies outward at 200 kt; past 100 nm it diverts to Montevideo,
    otherwise it re-enters the queue at the first 10-minute gap, at the
    distance at which it left. The two interactive simulators also record a
    position sample on each move; the storm variants do not. */
module Rejoin {
  import opened Options
  import opened Kinematics
  import opened Queues
  import opened Aircraft
  import opened Traffic

  /** One minute of outward flight at 200 kt, with one sample when `sample`. */
  function Outward(s: PlaneState, sample: bool): (r: PlaneState)
    ensures r.dist == s.dist + RejoinSpeed / 60.0
    ensures r.positions == if sample then s.positions + [(LastTime(s.positions) + 1, r.dist)] else s.positions
    ensures r.(dist := s.dist, positions := s.positions) == s
  {
    var d: Nm := s.dist + KnotsToNmPerMin(RejoinSpeed);
    s.(dist := d, positions := if sample then s.positions + [(LastTime(s.positions) + 1, d)] else s.positions)
  }

  /** Diverted to Montevideo at minute t. */
  function Divert(s: PlaneState, t: int): PlaneState
  {
    s.(status := Montevideo, montevideoTime := Some(t))
  }

  /** Back in the queue at the distance at which it left, with a sample at
      the same minute when `sample`. */
  function Reenter(s: PlaneState, sample: bool): PlaneState
  {
    s.(status := Approaching, dist := s.rejoinDist,
       positions := if sample then s.positions + [(LastTime(s.positions), s.rejoinDist)] else s.positions)
  }

  /** The landing times of the queue, front first, seen from minute t. */
  function QueueTimes(t: int, w: Traffic): (r: seq<real>)
    requires Sound(w)
    ensures |r| == |w.queue| && TimedIn(w.fleet, w.queue)
    ensures forall k :: 0 <= k < |r| ==> r[k] == LandingTime(t, KinOf(w.fleet[w.queue[k]]))
  {
    FleetTimedIn(w.fleet, w.queue);
    LandingTimes(t, w.fleet, w.queue)
  }

  /** The gap search of one rejoin turn, with the moved aircraft's new state
      already in the fleet. */
  function GapFor(t: int, w: Traffic): (r: Option<nat>)
    requires Sound(w)
    ensures r.Some? ==> 1 <= r.value < |w.queue|
  {
    FirstGap(QueueTimes(t, w), RejoinGapMin)
  }

  /** One rejoin turn for aircraft `id` of the rejoin list: the traffic
      after it and whether the aircraft was diverted. */
  function RejoinStep(t: int, sample: bool, w: Traffic, id: int): (r: (Traffic, bool))
    requires Sound(w) && id in w.side
  {
    var s := Outward(w.fleet[id], sample);
    var w1 := w.(fleet := w.fleet[id := s]);
    if s.dist > OuterBound then
      (w.(fleet := w.fleet[id := Divert(s, t)], side := RemoveFirst(w.side, id)), true)
    else
      match GapFor(t, w1)
      case None => (w1, false)
      case Some(j) =>
        (w.(fleet := w.fleet[id := Reenter(s, sample)], queue := InsertAt(w.queue, j, id),
            side := RemoveFirst(w.side, id)), false)
  }

  /** The gap search reads only the queued aircraft. */
  lemma {:induction false} LandingTimesOff(t: int, fleet: Fleet, queue: seq<int>, id: int, s: PlaneState)
    requires Listed(fleet, queue) && TimedIn(fleet, queue) && id !in queue
    ensures Listed(fleet[id := s], queue) && TimedIn(fleet[id := s], queue)
    ensures LandingTimes(t, fleet[id := s], queue) == LandingTimes(t, fleet, queue)
  {
    forall k | 0 <= k < |queue| ensures fleet[id := s][queue[k]] == fleet[queue[k]] {
      assert queue[k] != id;
    }
  }

  /** A rejoin turn changes only aircraft `id`, and diverts it exactly when
      the outward minute takes it past 100 nm. */
  lemma {:induction false} RejoinStepFrame(t: int, sample: bool, w: Traffic, id: int)
    requires Sound(w) && id in w.side
    ensures var w' := RejoinStep(t, sample, w, id).0;
      && w'.fleet.Keys == w.fleet.Keys
      && (forall x :: x in w.fleet && x != id ==> w'.fleet[x] == w.fleet[x])
    ensures RejoinStep(t, sample, w, id).1 <==> w.fleet[id].dist + 200.0 / 60.0 > 100.0
    ensures var w' := RejoinStep(t, sample, w, id).0;
      w'.side == w.side || w'.side == RemoveFirst(w.side, id)
  {
  }

  /** Past 100 nm: diverted to Montevideo at minute t, off the rejoin list,
      the queue untouched. */
  lemma {:induction false} RejoinDivert(t: int, sample: bool, w: Traffic, id: int)
    requires Sound(w) && id in w.side && w.fleet[id].dist + 200.0 / 60.0 > 100.0
    ensures var s := Outward(w.fleet[id], sample);
      RejoinStep(t, sample, w, id) ==
        (Traffic(w.fleet[id := s.(status := Montevideo, montevideoTime := Some(t))], w.queue, RemoveFirst(w.side, id)), true)
  {
  }

  /** Inside 100 nm, with j the first queue position whose landing time is
      at least 10 minutes after its predecessor's: reinserted there, at
      approaching status and at the distance at which it left. */
  lemma {:induction false} RejoinReinsert(t: int, sample: bool, w: Traffic, id: int, j: nat)
    requires Sound(w) && id in w.side && w.fleet[id].dist + 200.0 / 60.0 <= 100.0
    requires 1 <= j < |w.queue|
    requires var times := QueueTimes(t, w); times[j] - times[j - 1] >= 10.0
    requires var times := QueueTimes(t, w); forall i :: 1 <= i < j ==> times[i] - times[i - 1] < 10.0
    ensures var s := Outward(w.fleet[id], sample);
      RejoinStep(t, sample, w, id) ==
        (Traffic(w.fleet[id := s.(status := Approaching, dist := s.rejoinDist,
                                    positions := if sample then s.positions + [(LastTime(s.positions), s.rejoinDist)] else s.positions)],
                 InsertAt(w.queue, j, id), RemoveFirst(w.side, id)), false)
  {
    var s := Outward(w.fleet[id], sample);
    assert id !in w.queue;
    FleetTimedIn(w.fleet, w.queue);
    LandingTimesOff(t, w.fleet, w.queue, id, s);
    assert QueueTimes(t, w.(fleet := w.fleet[id := s])) == QueueTimes(t, w);
  }

  /** Inside 100 nm with no such gap: one more minute outward, still on the
      rejoin list. */
  lemma {:induction false} RejoinStay(t: int, sample: bool, w: Traffic, id: int)
    requires Sound(w) && id in w.side && w.fleet[id].dist + 200.0 / 60.0 <= 100.0
    requires var times := QueueTimes(t, w); forall i :: 1 <= i < |w.queue| ==> times[i] - times[i - 1] < 10.0
    ensures RejoinStep(t, sample, w, id) == (w.(fleet := w.fleet[id := Outward(w.fleet[id], sample)]), false)
  {
    var s := Outward(w.fleet[id], sample);
    assert id !in w.queue;
    FleetTimedIn(w.fleet, w.queue);
    LandingTimesOff(t, w.fleet, w.queue, id, s);
    assert QueueTimes(t, w.(fleet := w.fleet[id := s])) == QueueTimes(t, w);
  }

  /** A rejoin turn keeps the traffic sound. */
  lemma {:induction false} RejoinStepSound(t: int, sample: bool, w: Traffic, id: int)
    requires Sound(w) && id in w.side
    ensures Sound(RejoinStep(t, sample, w, id).0)
  {
    assert id !in w.queue;
    var s := Outward(w.fleet[id], sample);
    var w1 := w.(fleet := w.fleet[id := s]);
    SoundUpdate(w, id, s);
    if s.dist <= OuterBound {
      match GapFor(t, w1)
      case None =>
      case Some(j) =>
        var r := Reenter(s, sample);
        SoundUpdate(w, id, r);
        var w2 := w.(fleet := w.fleet[id := r]);
        SoundLeave(w2, id);
        SoundJoin(w2.(side := RemoveFirst(w.side, id)), id, j);
    } else {
      SoundUpdate(w, id, Divert(s, t));
      SoundLeave(w.(fleet := w.fleet[id := Divert(s, t)]), id);
    }
  }

  /** A rejoin turn moves the counted aircraft between classes as the lists
      move: a diverted aircraft leaves the rejoin list and adds one to the
      Montevideo count, a reinserted one joins the queue. */
  lemma {:induction false} RejoinStepTally(t: int, sample: bool, w: Traffic, id: int, landed: nat, diverted: nat)
    requires Tallied(w, Rejoin, landed, diverted) && id in w.side
    ensures var (w', d) := RejoinStep(t, sample, w, id);
      Tallied(w', Rejoin, landed, diverted + if d then 1 else 0)
  {
    if w.fleet[id].dist + 200.0 / 60.0 > 100.0 {
      TallyAfterDivert(t, sample, w, id, landed, diverted);
    } else {
      match FirstGap(QueueTimes(t, w), RejoinGapMin)
      case None => TallyAfterStay(t, sample, w, id, landed, diverted);
      case Some(j) => TallyAfterReinsert(t, sample, w, id, landed, diverted, j);
    }
  }

  lemma {:induction false} TallyAfterDivert(t: int, sample: bool, w: Traffic, id: int, landed: nat, diverted: nat)
    requires Tallied(w, Rejoin, landed, diverted) && id in w.side
    requires w.fleet[id].dist + 200.0 / 60.0 > 100.0
    ensures RejoinStep(t, sample, w, id).1
    ensures Tallied(RejoinStep(t, sample, w, id).0, Rejoin, landed, diverted + 1)
  {
    var s := Outward(w.fleet[id], sample);
    RejoinDivert(t, sample, w, id);
    TallyDivert(w, Rejoin, landed, diverted, id, s.(status := Montevideo, montevideoTime := Some(t)));
  }

  lemma {:induction false} TallyAfterStay(t: int, sample: bool, w: Traffic, id: int, landed: nat, diverted: nat)
    requires Tallied(w, Rejoin, landed, diverted) && id in w.side
    requires w.fleet[id].dist + 200.0 / 60.0 <= 100.0 && FirstGap(QueueTimes(t, w), RejoinGapMin).None?
    ensures !RejoinStep(t, sample, w, id).1
    ensures Tallied(RejoinStep(t, sample, w, id).0, Rejoin, landed, diverted)
  {
    RejoinStay(t, sample, w, id);
    TallyStay(w, Rejoin, landed, diverted, id, Outward(w.fleet[id], sample));
  }

  lemma {:induction false} TallyAfterReinsert(t: int, sample: bool, w: Traffic, id: int, landed: nat, diverted: nat, j: nat)
    requires Tallied(w, Rejoin, landed, diverted) && id in w.side
    requires w.fleet[id].dist + 200.0 / 60.0 <= 100.0 && FirstGap(QueueTimes(t, w), RejoinGapMin) == Some(j)
    ensures !RejoinStep(t, sample, w, id).1
    ensures Tallied(RejoinStep(t, sample, w, id).0, Rejoin, landed, diverted)
  {
    RejoinReinsert(t, sample, w, id, j);
    TallyJoin(w, Rejoin, landed, diverted, id, Reenter(Outward(w.fleet[id], sample), sample), j);
  }

  /** Aircraft of the snapshot after position n - 1 are still waiting after
      the turn of the one at n - 1. */
  lemma {:induction false} StillWaiting(side: seq<int>, side': seq<int>, snap: seq<int>, n: nat)
    requires Distinct(side) && Distinct(snap) && 0 < n <= |snap|
    requires forall k :: n - 1 <= k < |snap| ==> snap[k] in side
    requires side' == side || side' == RemoveFirst(side, snap[n - 1])
    ensures forall k :: n <= k < |snap| ==> snap[k] in side'
  {
    forall k | n <= k < |snap| ensures snap[k] in side' {
      DistinctAt(snap, n - 1, k);
      RemoveFirstMember(side, snap[n - 1], snap[k]);
    }
  }

  /** A turn is taken from sound traffic by an aircraft still on the rejoin
      list. */
  predicate Waiting(w: Traffic, id: int)
  {
    Sound(w) && id in w.side
  }

  /** `for plane in rejoining[:]`: the turns of the first n aircraft of the
      snapshot taken when the pass starts, and how many were diverted. A
      turn is taken only while the aircraft is `Waiting`; RejoinFromSound
      shows that on a snapshot of the rejoin list of sound traffic that is
      always so. */
  function RejoinFrom(t: int, sample: bool, w: Traffic, snap: seq<int>, n: nat): (Traffic, nat)
    requires n <= |snap|
  {
    if n == 0 then (w, 0)
    else
      var p := RejoinFrom(t, sample, w, snap, n - 1);
      if Waiting(p.0, snap[n - 1]) then
        var q := RejoinStep(t, sample, p.0, snap[n - 1]);
        (q.0, p.1 + if q.1 then 1 else 0)
      else p
  }

  /** Every turn of the pass is taken: the traffic stays sound and the
      aircraft not yet handled are still waiting. */
  lemma {:induction false} RejoinFromSound(t: int, sample: bool, w: Traffic, snap: seq<int>, n: nat)
    requires Sound(w) && Distinct(snap) && n <= |snap|
    requires forall k :: 0 <= k < |snap| ==> snap[k] in w.side
    ensures var r := RejoinFrom(t, sample, w, snap, n);
      Sound(r.0) && r.1 <= n && r.0.fleet.Keys == w.fleet.Keys
      && forall k :: n <= k < |snap| ==> snap[k] in r.0.side
  {
    if n > 0 {
      RejoinFromSound(t, sample, w, snap, n - 1);
      RejoinTurnSound(t, sample, RejoinFrom(t, sample, w, snap, n - 1).0, snap, n);
    }
  }

  lemma {:induction false} RejoinTurnSound(t: int, sample: bool, w: Traffic, snap: seq<int>, n: nat)
    requires Sound(w) && Distinct(snap) && 0 < n <= |snap|
    requires forall k :: n - 1 <= k < |snap| ==> snap[k] in w.side
    ensures var w' := RejoinStep(t, sample, w, snap[n - 1]).0;
      Sound(w') && w'.fleet.Keys == w.fleet.Keys
      && forall k :: n <= k < |snap| ==> snap[k] in w'.side
  {
    RejoinStepSound(t, sample, w, snap[n - 1]);
    RejoinStepFrame(t, sample, w, snap[n - 1]);
    StillWaiting(w.side, RejoinStep(t, sample, w, snap[n - 1]).0.side, snap, n);
  }

  /** The whole rejoin pass keeps the tally: the Montevideo count grows by
      the number of diverted aircraft. */
  lemma {:induction false} RejoinFromTally(t: int, sample: bool, w: Traffic, snap: seq<int>, n: nat, landed: nat, diverted: nat)
    requires Tallied(w, Rejoin, landed, diverted) && Distinct(snap) && n <= |snap|
    requires forall k :: 0 <= k < |snap| ==> snap[k] in w.side
    ensures var r := RejoinFrom(t, sample, w, snap, n); Tallied(r.0, Rejoin, landed, diverted + r.1)
  {
    if n > 0 {
      RejoinFromTally(t, sample, w, snap, n - 1, landed, diverted);
      RejoinFromSound(t, sample, w, snap, n - 1);
      var p := RejoinFrom(t, sample, w, snap, n - 1);
      RejoinStepTally(t, sample, p.0, snap[n - 1], landed, diverted + p.1);
    }
  }

  /** The gap loop `for j in range(1, len(queue))` with its `break`. */
  method FindGap(t: int, w: Traffic) returns (j: Option<nat>)
    requires Sound(w)
    ensures j == GapFor(t, w)
  {
    ghost var times := QueueTimes(t, w);
    var k := 1;
    while k < |w.queue|
      invariant 1 <= k
      invariant FirstGapFrom(times, RejoinGapMin, k) == FirstGap(times, RejoinGapMin)
    {
      var prev := LandingTime(t, KinOf(w.fleet[w.queue[k - 1]]));
      var curr := LandingTime(t, KinOf(w.fleet[w.queue[k]]));
      if curr - prev >= RejoinGapMin {
        return Some(k);
      }
      k := k + 1;
    }
    return None;
  }

  /** The body of the rejoin loop for one aircraft. */
  method RejoinOne(t: int, sample: bool, w: Traffic, id: int) returns (w': Traffic, diverted: bool)
    requires Sound(w) && id in w.side
    ensures (w', diverted) == RejoinStep(t, sample, w, id)
  {
    var s := Outward(w.fleet[id], sample);
    if s.dist > OuterBound {
      w' := Traffic(w.fleet[id := Divert(s, t)], w.queue, RemoveFirst(w.side, id));
      diverted := true;
      return;
    }
    w' := w.(fleet := w.fleet[id := s]);
    diverted := false;
    var gap := FindGap(t, w');
    if gap.Some? {
      w' := Traffic(w.fleet[id := Reenter(s, sample)], InsertAt(w.queue, gap.value, id), RemoveFirst(w.side, id));
    }
  }

  ghost predicate RejoinProgress(t: int, sample: bool, w0: Traffic, i: nat, w: Traffic, diverted: nat)
    requires Sound(w0) && i <= |w0.side|
  {
    (w, diverted) == RejoinFrom(t, sample, w0, w0.side, i)
  }

  method RejoinPassStep(t: int, sample: bool, ghost w0: Traffic, i: nat, id: int, w: Traffic, diverted: nat)
    returns (w': Traffic, diverted': nat)
    requires Sound(w0) && i < |w0.side| && id == w0.side[i]
    requires RejoinProgress(t, sample, w0, i, w, diverted)
    ensures RejoinProgress(t, sample, w0, i + 1, w', diverted')
  {
    RejoinFromNext(t, sample, w0, i);
    var d;
    w', d := RejoinOne(t, sample, w, id);
    diverted' := diverted + if d then 1 else 0;
  }

  /** On a snapshot of the rejoin list the turn of aircraft i is taken. */
  lemma {:induction false} RejoinFromNext(t: int, sample: bool, w0: Traffic, i: nat)
    requires Sound(w0) && i < |w0.side|
    ensures var p := RejoinFrom(t, sample, w0, w0.side, i);
      && Waiting(p.0, w0.side[i])
      && var q := RejoinStep(t, sample, p.0, w0.side[i]);
         RejoinFrom(t, sample, w0, w0.side, i + 1) == (q.0, p.1 + if q.1 then 1 else 0)
  {
    RejoinFromSound(t, sample, w0, w0.side, i);
  }

  /** The rejoin pass over a snapshot of the rejoin list. */
  method RejoinPass(t: int, sample: bool, w0: Traffic) returns (w: Traffic, diverted: nat)
    requires Sound(w0)
    ensures (w, diverted) == RejoinFrom(t, sample, w0, w0.side, |w0.side|)
  {
    var snap := w0.side;
    w, diverted := w0, 0;
    var i := 0;
    while i < |snap|
      invariant 0 <= i <= |snap|
      invariant RejoinProgress(t, sample, w0, i, w, diverted)
    {
      w, diverted := RejoinPassStep(t, sample, w0, i, snap[i], w, diverted);
      i := i + 1;
    }
  }
}
