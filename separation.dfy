/** The separation pass over the approach queue, shared by every variant:
    main.py (lenient: only the buffer test ejects), and Ejercicio1,
    Ejercicio5, both storm variants and the holding variant (strict: an
    aircraft is also ejected when the reduced speed would fall below its
    band minimum). Ejected aircraft go to 'rejoin', or to 'holding' in the
    holding variant. */
module Separation {
  import opened Options
  import opened Kinematics
  import opened Queues
  import opened Aircraft

  /** What one turn of the pass does with an aircraft. */
  datatype Action = Skip | Eject | SetSpeed(v: Knots)

  /** The decision for an approaching aircraft at distance `dist` flying
      `speed`, whose predecessor lands at `prevLand` and flies `prevSpeed`:
      with a gap of at least 4 minutes it speeds up to its band maximum;
      otherwise it takes max(v_min, prevSpeed - 20) if that restores a
      5-minute buffer (and, when `strict`, if prevSpeed - 20 is not below
      v_min), and is ejected if not. */
  function Decide(strict: bool, t: int, prevLand: real, prevSpeed: real, dist: real, speed: Knots): (a: Action)
    requires dist >= 0.0
    ensures a != Skip
    ensures a.SetSpeed? ==> a.v >= MinSpeed(dist)
  {
    var vMin := MinSpeed(dist);
    var nueva: Knots := Max(vMin, prevSpeed - SpeedStep);
    if t as real + EtaMinutes(dist, speed) - prevLand < MinSeparationMin then
      if (strict && prevSpeed - SpeedStep < vMin) || t as real + EtaMinutes(dist, nueva) - prevLand < BufferMin then Eject
      else SetSpeed(nueva)
    else SetSpeed(MaxSpeed(dist))
  }

  /** The gap, in minutes, between an aircraft landing from `dist` at
      `speed` seen from minute t and a predecessor landing at `prevLand`. */
  function Gap(t: int, prevLand: real, dist: real, speed: Knots): real
  {
    t as real + EtaMinutes(dist, speed) - prevLand
  }

  /** The speed a follower too close to its predecessor is offered:
      max(v_min, prevSpeed - 20). */
  function Reduced(prevSpeed: real, dist: real): (v: Knots)
    ensures v >= MinSpeed(dist) && v >= prevSpeed - SpeedStep
  {
    Max(MinSpeed(dist), prevSpeed - SpeedStep)
  }

  /** A follower closer than 4 minutes can be kept: the reduced speed
      restores the 5-minute buffer and, in the strict test, prevSpeed - 20
      is not below its band minimum. */
  predicate Separable(strict: bool, t: int, prevLand: real, prevSpeed: real, dist: real)
  {
    && !(strict && prevSpeed - SpeedStep < MinSpeed(dist))
    && Gap(t, prevLand, dist, Reduced(prevSpeed, dist)) >= BufferMin
  }

  /** What Decide promises: a gap of at least 4 minutes speeds the aircraft
      up to its band maximum; a closer follower is kept at the reduced speed
      exactly when that separates it, and ejected exactly when not; a kept
      aircraft never flies below its band minimum and restores the 5-minute
      buffer, in the strict test at exactly prevSpeed - 20; the lenient test
      ejects only when the reduced speed leaves the buffer under 5 minutes;
      an aircraft that not even the band minimum separates is ejected. */
  lemma {:induction false} DecideSpec(strict: bool, t: int, prevLand: real, prevSpeed: real, dist: real, speed: Knots)
    requires dist >= 0.0
    ensures var a := Decide(strict, t, prevLand, prevSpeed, dist, speed);
      && (Gap(t, prevLand, dist, speed) >= MinSeparationMin ==> a == SetSpeed(MaxSpeed(dist)))
      && (Gap(t, prevLand, dist, speed) < MinSeparationMin ==>
            && (a == Eject <==> !Separable(strict, t, prevLand, prevSpeed, dist))
            && (Separable(strict, t, prevLand, prevSpeed, dist) <==> a == SetSpeed(Reduced(prevSpeed, dist))))
      && (a == Eject ==> Gap(t, prevLand, dist, speed) < MinSeparationMin)
      && (!strict && a == Eject ==> Gap(t, prevLand, dist, Reduced(prevSpeed, dist)) < BufferMin)
      && (a.SetSpeed? ==> a.v >= MinSpeed(dist))
      && (a.SetSpeed? && Gap(t, prevLand, dist, speed) < MinSeparationMin ==>
            a.v == Reduced(prevSpeed, dist) && Gap(t, prevLand, dist, a.v) >= BufferMin)
      && (strict && a.SetSpeed? && Gap(t, prevLand, dist, speed) < MinSeparationMin ==> a.v == prevSpeed - SpeedStep)
      && (Gap(t, prevLand, dist, speed) < MinSeparationMin && Gap(t, prevLand, dist, MinSpeed(dist)) < BufferMin ==> a == Eject)
  {
    var vMin := MinSpeed(dist);
    var nueva: Knots := Max(vMin, prevSpeed - SpeedStep);
    EtaMonotone(dist, vMin, nueva);
  }

  /** The strict test ejects every aircraft the lenient one does, and
      otherwise agrees with it. */
  lemma {:induction false} StrictRefinesLenient(t: int, prevLand: real, prevSpeed: real, dist: real, speed: Knots)
    requires dist >= 0.0
    ensures Decide(false, t, prevLand, prevSpeed, dist, speed) == Eject ==>
      Decide(true, t, prevLand, prevSpeed, dist, speed) == Eject
    ensures Decide(true, t, prevLand, prevSpeed, dist, speed).SetSpeed? ==>
      Decide(false, t, prevLand, prevSpeed, dist, speed) == Decide(true, t, prevLand, prevSpeed, dist, speed)
  {
  }

  /** One turn: aircraft `cur`, behind `prev` as that one stands after its
      own turn (None at the head of the queue). Only approaching aircraft
      are treated; the head speeds up to its band maximum. */
  function Turn(strict: bool, t: int, prev: Option<Kin>, cur: Kin): (a: Action)
    requires prev.Some? ==> Timed(prev.value)
    ensures a == Skip <==> cur.status != Approaching
    ensures cur.status == Approaching && prev.None? ==> a == SetSpeed(MaxSpeed(cur.dist))
  {
    if cur.status != Approaching then Skip
    else if prev.None? then SetSpeed(MaxSpeed(cur.dist))
    else Decide(strict, t, LandingTime(t, prev.value), prev.value.speed, cur.dist, cur.speed)
  }

  /** What an aircraft looks like to its successor after its own turn: an
      ejected aircraft takes status `ejectTo` (never 'landed'). */
  function After(k: Kin, a: Action, ejectTo: Status): (r: Kin)
    requires Timed(k) && ejectTo != Landed
    ensures Timed(r) && r.dist == k.dist
  {
    match a
    case Skip => k
    case Eject => k.(status := ejectTo)
    case SetSpeed(v) => k.(speed := v)
  }

  /** The actions of a whole pass, front to back. */
  function Turns(strict: bool, t: int, ejectTo: Status, ks: seq<Kin>): (r: seq<Action>)
    requires ejectTo != Landed && forall k :: 0 <= k < |ks| ==> Timed(ks[k])
    ensures |r| == |ks|
  {
    if ks == [] then []
    else
      var n := |ks| - 1;
      var rs := Turns(strict, t, ejectTo, ks[..n]);
      rs + [Turn(strict, t, if n == 0 then None else Some(After(ks[n - 1], rs[n - 1], ejectTo)), ks[n])]
  }

  /** A prefix of the queue is decided as if the rest were absent. */
  lemma {:induction false} TurnsPrefix(strict: bool, t: int, ejectTo: Status, ks: seq<Kin>, m: nat)
    requires ejectTo != Landed && forall k :: 0 <= k < |ks| ==> Timed(ks[k])
    requires m <= |ks|
    ensures Turns(strict, t, ejectTo, ks)[..m] == Turns(strict, t, ejectTo, ks[..m])
    decreases |ks|
  {
    if m < |ks| {
      var n := |ks| - 1;
      assert ks[..n][..m] == ks[..m];
      TurnsPrefix(strict, t, ejectTo, ks[..n], m);
    } else {
      assert ks[..m] == ks;
    }
  }

  /** Each action is the Turn of its aircraft behind its predecessor as it
      stands after its own turn. */
  lemma {:induction false} TurnsAt(strict: bool, t: int, ejectTo: Status, ks: seq<Kin>, k: nat)
    requires ejectTo != Landed && forall j :: 0 <= j < |ks| ==> Timed(ks[j])
    requires k < |ks|
    ensures var rs := Turns(strict, t, ejectTo, ks);
      rs[k] == Turn(strict, t, if k == 0 then None else Some(After(ks[k - 1], rs[k - 1], ejectTo)), ks[k])
  {
    TurnsPrefix(strict, t, ejectTo, ks, k + 1);
    var rs := Turns(strict, t, ejectTo, ks);
    var pre := ks[..k + 1];
    assert pre[..k] == ks[..k];
    TurnsPrefix(strict, t, ejectTo, ks, k);
    assert rs[..k + 1][k] == rs[k];
    if k > 0 {
      assert rs[..k][k - 1] == rs[k - 1];
    }
  }

  /** What the pass guarantees about its actions: exactly the approaching
      aircraft are treated; the head flies its band maximum; a follower 4
      minutes behind its predecessor (as that one stands after its turn)
      flies its band maximum; a closer one is kept at the reduced speed
      exactly when that separates it and ejected otherwise; a kept aircraft
      never flies below its band minimum and is either 4 minutes behind at
      its band maximum or restores the 5-minute buffer. */
  lemma {:induction false} TurnsSeparate(strict: bool, t: int, ejectTo: Status, ks: seq<Kin>, k: nat)
    requires ejectTo != Landed && forall j :: 0 <= j < |ks| ==> Timed(ks[j])
    requires k < |ks|
    ensures var rs := Turns(strict, t, ejectTo, ks);
      && (rs[k] == Skip <==> ks[k].status != Approaching)
      && (k == 0 && ks[k].status == Approaching ==> rs[k] == SetSpeed(MaxSpeed(ks[k].dist)))
      && (k > 0 ==>
            var prevLand := LandingTime(t, After(ks[k - 1], rs[k - 1], ejectTo));
            var prevSpeed := After(ks[k - 1], rs[k - 1], ejectTo).speed;
            && (ks[k].status == Approaching && Gap(t, prevLand, ks[k].dist, ks[k].speed) >= MinSeparationMin ==>
                  rs[k] == SetSpeed(MaxSpeed(ks[k].dist)))
            && (ks[k].status == Approaching && Gap(t, prevLand, ks[k].dist, ks[k].speed) < MinSeparationMin ==>
                  && (rs[k] == Eject <==> !Separable(strict, t, prevLand, prevSpeed, ks[k].dist))
                  && (Separable(strict, t, prevLand, prevSpeed, ks[k].dist) <==>
                        rs[k] == SetSpeed(Reduced(prevSpeed, ks[k].dist))))
            && (rs[k] == Eject ==> Gap(t, prevLand, ks[k].dist, ks[k].speed) < MinSeparationMin)
            && (rs[k].SetSpeed? ==>
                  rs[k].v >= MinSpeed(ks[k].dist)
                  && ((Gap(t, prevLand, ks[k].dist, ks[k].speed) >= MinSeparationMin && rs[k].v == MaxSpeed(ks[k].dist))
                      || Gap(t, prevLand, ks[k].dist, rs[k].v) >= BufferMin)))
  {
    TurnsAt(strict, t, ejectTo, ks, k);
    var rs := Turns(strict, t, ejectTo, ks);
    if k > 0 {
      var p := After(ks[k - 1], rs[k - 1], ejectTo);
      DecideSpec(strict, t, LandingTime(t, p), p.speed, ks[k].dist, ks[k].speed);
    }
  }

  /** The statuses an ejected aircraft can take. */
  predicate EjectStatus(st: Status)
  {
    st == Rejoin || st == Holding
  }

  /** The effect of an action on the aircraft's fields: an aircraft ejected
      to 'rejoin' records the minute and distance at which it left, one
      ejected to 'holding' the minute; a kept one takes its new speed. */
  function ApplyTurn(t: int, ejectTo: Status, s: PlaneState, a: Action): (r: PlaneState)
    requires EjectStatus(ejectTo)
    ensures Timed(KinOf(s)) ==> KinOf(r) == After(KinOf(s), a, ejectTo)
  {
    match a
    case Skip => s
    case Eject =>
      if ejectTo == Rejoin then s.(status := Rejoin, rejoinStartTime := Some(t), rejoinDist := s.dist)
      else s.(status := Holding, holdingStartTime := Some(t))
    case SetSpeed(v) => s.(speed := v)
  }

  /** The fields a turn writes: an ejected aircraft takes the eject status
      and records the minute (and, for 'rejoin', the distance) at which it
      left, a kept one only changes speed, and nothing else changes. */
  lemma {:induction false} ApplyTurnFields(t: int, ejectTo: Status, s: PlaneState, a: Action)
    requires EjectStatus(ejectTo)
    ensures var r := ApplyTurn(t, ejectTo, s, a);
      && r.id == s.id && r.dist == s.dist && r.positions == s.positions && r.landedTime == s.landedTime
      && (a == Eject ==> r.status == ejectTo)
      && (a == Eject && ejectTo == Rejoin ==>
            r == s.(status := Rejoin, rejoinStartTime := Some(t), rejoinDist := s.dist))
      && (a == Eject && ejectTo == Holding ==> r == s.(status := Holding, holdingStartTime := Some(t)))
      && (a.SetSpeed? ==> r == s.(speed := a.v))
      && (a == Skip ==> r == s)
  {
  }

  function Ejections(rs: seq<Action>): (r: seq<bool>)
    ensures |r| == |rs| && forall k :: 0 <= k < |rs| ==> (r[k] <==> rs[k] == Eject)
  {
    seq(|rs|, k requires 0 <= k < |rs| => rs[k] == Eject)
  }

  /** The fleet after the first n turns of a pass over queue `q`. */
  function Applied(t: int, ejectTo: Status, f: Fleet, q: seq<int>, rs: seq<Action>, n: nat): (r: Fleet)
    requires EjectStatus(ejectTo) && n <= |q| && |rs| == |q| && Listed(f, q)
    ensures r.Keys == f.Keys
  {
    if n == 0 then f
    else
      var g := Applied(t, ejectTo, f, q, rs, n - 1);
      g[q[n - 1] := ApplyTurn(t, ejectTo, g[q[n - 1]], rs[n - 1])]
  }

  /** After n turns, the first n aircraft of a duplicate-free queue carry
      their action and the others are untouched. */
  lemma {:induction false} AppliedAt(t: int, ejectTo: Status, f: Fleet, q: seq<int>, rs: seq<Action>, n: nat, k: nat)
    requires EjectStatus(ejectTo) && n <= |q| && |rs| == |q| && Listed(f, q) && Distinct(q) && k < |q|
    ensures Applied(t, ejectTo, f, q, rs, n)[q[k]] ==
      if k < n then ApplyTurn(t, ejectTo, f[q[k]], rs[k]) else f[q[k]]
  {
    if n > 0 {
      AppliedAt(t, ejectTo, f, q, rs, n - 1, k);
      if k != n - 1 {
        DistinctAt(q, k, n - 1);
      }
    }
  }

  /** Aircraft outside the queue are untouched by the pass. */
  lemma {:induction false} AppliedOff(t: int, ejectTo: Status, f: Fleet, q: seq<int>, rs: seq<Action>, n: nat, id: int)
    requires EjectStatus(ejectTo) && n <= |q| && |rs| == |q| && Listed(f, q) && id in f && id !in q
    ensures Applied(t, ejectTo, f, q, rs, n)[id] == f[id]
  {
    if n > 0 {
      AppliedOff(t, ejectTo, f, q, rs, n - 1, id);
    }
  }

  /** The loop invariant of the pass: after i turns the fleet and the
      ejected list are those of the pure pass's first i turns. */
  ghost predicate Progress(strict: bool, t: int, ejectTo: Status, fleet0: Fleet, queue: seq<int>, rs: seq<Action>,
                           i: nat, fleet: Fleet, ejected: seq<int>)
    requires EjectStatus(ejectTo) && Listed(fleet0, queue) && |rs| == |queue| && i <= |queue|
  {
    fleet == Applied(t, ejectTo, fleet0, queue, rs, i) && ejected == Select(queue, Ejections(rs), i)
  }

  lemma {:induction false} ProgressNext(strict: bool, t: int, ejectTo: Status, fleet0: Fleet, queue: seq<int>, rs: seq<Action>,
                     i: nat, fleet: Fleet, ejected: seq<int>)
    requires EjectStatus(ejectTo) && Listed(fleet0, queue) && |rs| == |queue| && i < |queue|
    requires Progress(strict, t, ejectTo, fleet0, queue, rs, i, fleet, ejected)
    ensures queue[i] in fleet
    ensures Progress(strict, t, ejectTo, fleet0, queue, rs, i + 1,
                     fleet[queue[i] := ApplyTurn(t, ejectTo, fleet[queue[i]], rs[i])],
                     ejected + if rs[i] == Eject then [queue[i]] else [])
  {
  }

  /** What the i-th turn reads from the fleet: the aircraft as it was
      before the pass, behind its predecessor as that one's turn left it. */
  lemma {:induction false} ReadBack(strict: bool, t: int, ejectTo: Status, fleet0: Fleet, queue: seq<int>, rs: seq<Action>,
                 i: nat, fleet: Fleet, ejected: seq<int>)
    requires EjectStatus(ejectTo) && Distinct(queue) && Listed(fleet0, queue) && TimedIn(fleet0, queue)
    requires |rs| == |queue| && i < |queue|
    requires Progress(strict, t, ejectTo, fleet0, queue, rs, i, fleet, ejected)
    ensures queue[i] in fleet && KinOf(fleet[queue[i]]) == KinsIn(fleet0, queue)[i]
    ensures i > 0 ==> queue[i - 1] in fleet && Timed(KinOf(fleet[queue[i - 1]]))
    ensures i > 0 ==> KinOf(fleet[queue[i - 1]]) == After(KinsIn(fleet0, queue)[i - 1], rs[i - 1], ejectTo)
  {
    AppliedAt(t, ejectTo, fleet0, queue, rs, i, i);
    if i > 0 {
      AppliedAt(t, ejectTo, fleet0, queue, rs, i, i - 1);
    }
  }

  /** The decision for the i-th aircraft `plane`, behind `prev` (not looked
      at for the head of the queue). */
  method Decision(strict: bool, t: int, ejectTo: Status, ghost ks: seq<Kin>, ghost rs: seq<Action>, i: nat,
                  prev: PlaneState, plane: PlaneState) returns (a: Action)
    requires ejectTo != Landed && forall j :: 0 <= j < |ks| ==> Timed(ks[j])
    requires rs == Turns(strict, t, ejectTo, ks) && i < |ks| && ks[i] == KinOf(plane)
    requires i > 0 ==> KinOf(prev) == After(ks[i - 1], rs[i - 1], ejectTo)
    requires Timed(KinOf(prev))
    ensures a == rs[i]
  {
    a := Skip;
    if plane.status == Approaching {
      if i == 0 {
        a := SetSpeed(MaxSpeed(plane.dist));
      } else {
        a := Decide(strict, t, LandingTime(t, KinOf(prev)), prev.speed, plane.dist, plane.speed);
      }
    }
    TurnsAt(strict, t, ejectTo, ks, i);
  }

  /** Everything the loop of the pass keeps: its inputs as the pass needs
      them, the pure pass's actions, and Progress after i turns. */
  ghost predicate Stage(strict: bool, t: int, ejectTo: Status, fleet0: Fleet, queue: seq<int>, rs: seq<Action>,
                        i: nat, fleet: Fleet, ejected: seq<int>)
  {
    && EjectStatus(ejectTo) && Distinct(queue) && Listed(fleet0, queue) && TimedIn(fleet0, queue)
    && rs == Turns(strict, t, ejectTo, KinsIn(fleet0, queue)) && i <= |queue|
    && Progress(strict, t, ejectTo, fleet0, queue, rs, i, fleet, ejected)
  }

  lemma {:induction false} StageStart(strict: bool, t: int, ejectTo: Status, fleet0: Fleet, queue: seq<int>)
    requires EjectStatus(ejectTo) && Distinct(queue) && Listed(fleet0, queue) && TimedIn(fleet0, queue)
    ensures Stage(strict, t, ejectTo, fleet0, queue, Turns(strict, t, ejectTo, KinsIn(fleet0, queue)), 0, fleet0, [])
  {
  }

  /** One iteration of the pass: the turn of the i-th aircraft. */
  method SeparationStep(strict: bool, t: int, ejectTo: Status, ghost fleet0: Fleet, queue: seq<int>, ghost rs: seq<Action>,
                        i: nat, fleet: Fleet, ejected: seq<int>)
    returns (fleet': Fleet, ejected': seq<int>)
    requires Stage(strict, t, ejectTo, fleet0, queue, rs, i, fleet, ejected) && i < |queue|
    ensures Stage(strict, t, ejectTo, fleet0, queue, rs, i + 1, fleet', ejected')
  {
    ReadBack(strict, t, ejectTo, fleet0, queue, rs, i, fleet, ejected);
    var prev := fleet[queue[if i == 0 then i else i - 1]];
    var a := Decision(strict, t, ejectTo, KinsIn(fleet0, queue), rs, i, prev, fleet[queue[i]]);
    ProgressNext(strict, t, ejectTo, fleet0, queue, rs, i, fleet, ejected);
    var id := queue[i];
    fleet' := fleet[id := ApplyTurn(t, ejectTo, fleet[id], a)];
    ejected' := ejected + if a == Eject then [id] else [];
  }

  /** The separation pass at minute t over a duplicate-free queue whose
      landed aircraft are timed. The aircraft end in the states the pure
      pass computes from their states before it, and the returned list (the
      source's `to_remove`, also appended to the rejoin or holding list)
      holds the ejected aircraft in queue order. */
  method SeparationPass(fleet0: Fleet, queue: seq<int>, t: int, strict: bool, ejectTo: Status)
    returns (fleet: Fleet, ejected: seq<int>)
    requires EjectStatus(ejectTo) && Distinct(queue) && Listed(fleet0, queue) && TimedIn(fleet0, queue)
    ensures var rs := Turns(strict, t, ejectTo, KinsIn(fleet0, queue));
      fleet == Applied(t, ejectTo, fleet0, queue, rs, |queue|) && ejected == Select(queue, Ejections(rs), |queue|)
  {
    ghost var rs := Turns(strict, t, ejectTo, KinsIn(fleet0, queue));
    fleet := fleet0;
    ejected := [];
    StageStart(strict, t, ejectTo, fleet0, queue);
    var i := 0;
    while i < |queue|
      invariant Stage(strict, t, ejectTo, fleet0, queue, rs, i, fleet, ejected)
    {
      fleet, ejected := SeparationStep(strict, t, ejectTo, fleet0, queue, rs, i, fleet, ejected);
      i := i + 1;
    }
  }
}
