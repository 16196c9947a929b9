/** VisualSimulationVentoso of Ejercicio5/simulador_ventoso.py: the
    interactive simulator on a windy day. Arrivals, the strict separation
    pass and the rejoin pass are those of Ejercicio1/simulador.py; the
    position pass differs. An aircraft that reaches the runway draws a
    landing attempt (PlaneVentoso.intentar_aterrizaje): it lands, or the
    landing is interrupted, and it then goes round to the rejoin list at
    20 nm at half its minimum speed while every other approaching aircraft
    of the queue is slowed down. */
module Windy {
  import opened Options
  import opened Kinematics
  import opened Queues
  import opened Aircraft
  import opened Traffic
  import opened Ejection
  import opened Intake
  import opened Visual

  /** An interrupted landing restarts its approach from 20 nm ... */
  const ReentryDist: Nm := 20.0
  /** ... at half the minimum speed of that distance. */
  const GoAroundFactor: real := 0.5
  /** Every other approaching aircraft drops to 0.6 times its minimum
      speed, but not below 80 knots. */
  const CongestionFactor: real := 0.6
  const CongestionFloor: real := 80.0

  /** A successful landing at minute t: the landing minute is t. */
  function Touched(s: PlaneState, t: int): PlaneState
  {
    s.(status := Landed, landedTime := Some(t), inInterruption := false)
  }

  /** An interrupted landing at minute t: back to 'rejoin' from 20 nm,
      slowed, flagged, and the interruption counted on the aircraft. */
  function GoneAround(s: PlaneState, t: int): PlaneState
  {
    s.(status := Rejoin, rejoinStartTime := Some(t), rejoinDist := ReentryDist, dist := ReentryDist,
       inInterruption := true, speed := MinSpeed(ReentryDist) * GoAroundFactor,
       interruptions := s.interruptions + 1)
  }

  /** The slow-down an interruption imposes on another approaching aircraft. */
  function Congest(s: PlaneState): (r: PlaneState)
    ensures r.speed >= CongestionFloor && r == s.(speed := r.speed)
  {
    s.(speed := Max(MinSpeed(s.dist) * CongestionFactor, CongestionFloor))
  }

  /** `for other in queue: if other != plane and other.status ==
      'approaching': <slow it down>`. */
  function Congested(f: Fleet, q: seq<int>, id: int): Fleet
  {
    map x | x in f :: if x in q && x != id && f[x].status == Approaching then Congest(f[x]) else f[x]
  }

  /** The congestion changes speeds only: every other approaching aircraft
      of the queue takes the congestion speed, everything else is as it was. */
  lemma {:induction false} CongestedEvery(f: Fleet, q: seq<int>, id: int)
    ensures var g := Congested(f, q, id);
      && g.Keys == f.Keys
      && (forall x :: x in f ==> g[x] == f[x].(speed := g[x].speed))
      && (forall x :: x in f && x in q && x != id && f[x].status == Approaching ==>
            g[x].speed == Max(MinSpeed(f[x].dist) * CongestionFactor, CongestionFloor))
      && (forall x :: x in f && !(x in q && x != id && f[x].status == Approaching) ==> g[x] == f[x])
      && (FleetTimed(f) ==> FleetTimed(g))
  {
    var g := Congested(f, q, id);
    forall x | x in f ensures g[x] == f[x].(speed := g[x].speed) {
    }
  }

  /** The position pass as it goes: the aircraft, `to_remove_landed`, the
      aircraft appended to `rejoining`, and the landings counted. */
  datatype Landing = Landing(fleet: Fleet, collected: seq<int>, bounced: seq<int>, landed: nat)

  /** One iteration of `for plane in queue[:]`, for the aircraft `id` of the
      live queue `q`, `ok` being the outcome of its landing attempt. */
  function LandStep(t: int, ok: bool, q: seq<int>, l: Landing, id: int): Landing
  {
    if id in l.fleet && l.fleet[id].status == Approaching then
      var a := Advanced(l.fleet[id], 1);
      if a.dist > 0.0 then l.(fleet := l.fleet[id := a])
      else if ok then Landing(l.fleet[id := Touched(a, t)], l.collected + [id], l.bounced, l.landed + 1)
      else Landing(Congested(l.fleet[id := GoneAround(a, t)], q, id), l.collected + [id], l.bounced + [id], l.landed)
    else l
  }

  /** The pass over the first n aircraft of the snapshot `q`, `draws(i)`
      being the draw of the landing attempt of the aircraft at position i. */
  function Landings(t: int, draws: nat -> real, f: Fleet, q: seq<int>, n: nat): Landing
    requires n <= |q|
  {
    if n == 0 then Landing(f, [], [], 0)
    else LandStep(t, !Interrupted(draws(n - 1)), q, Landings(t, draws, f, q, n - 1), q[n - 1])
  }

  /** The lists and the count of the pass over q[..n]: the aircraft it
      took out of the queue are distinct and were approaching, the
      interrupted ones are among them and the others landed; none of
      q[n..] has been taken out yet. */
  predicate LandLists(f: Fleet, q: seq<int>, n: nat, collected: seq<int>, bounced: seq<int>, landed: nat)
  {
    && Distinct(collected) && Distinct(bounced)
    && (forall x :: x in collected ==> x in f && f[x].status == Approaching)
    && (forall x :: x in bounced ==> x in collected)
    && landed + |bounced| == |collected|
    && (forall k :: n <= k < |q| ==> q[k] !in collected)
  }

  /** The pass keeps every aircraft, each with a landing minute if landed. */
  predicate LandFleet(f: Fleet, l: Landing)
  {
    l.fleet.Keys == f.Keys && FleetTimed(l.fleet)
  }

  /** Every aircraft's status: 'rejoin' if interrupted, 'landed' if taken
      out otherwise, and unchanged if the pass did not take it out. */
  predicate LandStatus(f: Fleet, l: Landing)
    requires l.fleet.Keys == f.Keys
  {
    forall x :: x in f ==>
      l.fleet[x].status == if x in l.bounced then Rejoin else if x in l.collected then Landed else f[x].status
  }

  /** Nothing outside the queue changes, and nobody's interruption count
      changes before its own landing attempt. */
  predicate LandFrame(f: Fleet, q: seq<int>, l: Landing)
    requires l.fleet.Keys == f.Keys
  {
    && (forall x :: x in f && x !in q ==> l.fleet[x] == f[x])
    && (forall x :: x in f && x !in l.collected ==> l.fleet[x].interruptions == f[x].interruptions)
  }

  /** What an interrupted landing at minute t leaves on the aircraft. */
  predicate WentAround(t: int, before: PlaneState, after: PlaneState)
  {
    && after.dist == ReentryDist && after.rejoinDist == ReentryDist
    && after.rejoinStartTime == Some(t) && after.inInterruption
    && after.speed == MinSpeed(ReentryDist) * GoAroundFactor
    && after.interruptions == before.interruptions + 1
  }

  /** A landed aircraft carries minute t and no interruption flag; an
      interrupted one carries the go-around record. */
  predicate LandRecords(t: int, f: Fleet, l: Landing)
    requires l.fleet.Keys == f.Keys
  {
    && (forall x :: x in f && x in l.collected && x !in l.bounced ==>
          l.fleet[x].landedTime == Some(t) && !l.fleet[x].inInterruption)
    && (forall x :: x in f && x in l.bounced ==> WentAround(t, f[x], l.fleet[x]))
  }

  /** The per-aircraft facts, for a pass that kept the keys. */
  predicate LandMarks(t: int, f: Fleet, q: seq<int>, l: Landing)
    requires l.fleet.Keys == f.Keys
  {
    LandStatus(f, l) && LandFrame(f, q, l) && LandRecords(t, f, l)
  }

  predicate LandInvariant(t: int, f: Fleet, q: seq<int>, n: nat, l: Landing)
  {
    && LandLists(f, q, n, l.collected, l.bounced, l.landed)
    && LandFleet(f, l) && LandMarks(t, f, q, l)
  }

  /** The aircraft q[n] has not been taken out yet: its status and its
      interruption count are those the pass found. */
  lemma {:induction false} LandNext(t: int, f: Fleet, q: seq<int>, n: nat, l: Landing)
    requires Listed(f, q) && n < |q|
    requires LandInvariant(t, f, q, n, l)
    ensures q[n] in l.fleet && q[n] !in l.collected && q[n] !in l.bounced
    ensures l.fleet[q[n]].status == f[q[n]].status
    ensures l.fleet[q[n]].interruptions == f[q[n]].interruptions
  {
    var id := q[n];
    assert id in f;
    assert id !in l.collected;
    assert id !in l.bounced;
    assert l.fleet[id].status == f[id].status;
  }

  /** Taking q[n] out keeps the lists right. */
  lemma {:induction false} ListsNext(f: Fleet, q: seq<int>, n: nat, l: Landing, bounce: bool)
    requires Listed(f, q) && Distinct(q) && n < |q|
    requires LandLists(f, q, n, l.collected, l.bounced, l.landed)
    requires q[n] !in l.collected && f[q[n]].status == Approaching
    ensures LandLists(f, q, n + 1, l.collected + [q[n]],
                      if bounce then l.bounced + [q[n]] else l.bounced, if bounce then l.landed else l.landed + 1)
  {
    var id := q[n];
    DistinctSnoc(l.collected, id);
    if bounce {
      DistinctSnoc(l.bounced, id);
    }
    DistinctIndex(q);
    forall k | n + 1 <= k < |q| ensures q[k] !in l.collected + [id] {
      assert q[k] != q[n];
    }
  }

  /** Passing over q[n] without taking it out keeps the lists right. */
  lemma {:induction false} ListsSkip(f: Fleet, q: seq<int>, n: nat, collected: seq<int>, bounced: seq<int>, landed: nat)
    requires n < |q| && LandLists(f, q, n, collected, bounced, landed)
    ensures LandLists(f, q, n + 1, collected, bounced, landed)
  {
  }

  /** The facts both landing outcomes start from. */
  predicate Attempt(t: int, f: Fleet, q: seq<int>, n: nat, l: Landing)
    requires n < |q|
  {
    && Listed(f, q) && FleetTimed(f)
    && LandFleet(f, l) && LandMarks(t, f, q, l)
    && q[n] in l.fleet && q[n] !in l.collected && q[n] !in l.bounced
    && l.fleet[q[n]].status == f[q[n]].status == Approaching
    && (forall x :: x in l.collected ==> x in f && f[x].status == Approaching)
  }

  /** A flight that stops short of the runway. */
  lemma {:induction false} FlewOn(t: int, f: Fleet, q: seq<int>, n: nat, l: Landing, a: PlaneState)
    requires n < |q| && Attempt(t, f, q, n, l)
    requires a == Advanced(l.fleet[q[n]], 1) && a.dist > 0.0
    ensures var l' := l.(fleet := l.fleet[q[n] := a]);
      LandFleet(f, l') && LandMarks(t, f, q, l')
  {
  }

  lemma {:induction false} TouchedFleet(t: int, f: Fleet, q: seq<int>, n: nat, l: Landing, a: PlaneState)
    requires n < |q| && Attempt(t, f, q, n, l)
    ensures var l' := Landing(l.fleet[q[n] := Touched(a, t)], l.collected + [q[n]], l.bounced, l.landed + 1);
      LandFleet(f, l') && LandMarks(t, f, q, l')
  {
  }

  lemma {:induction false} BouncedFleet(t: int, f: Fleet, q: seq<int>, n: nat, l: Landing, a: PlaneState)
    requires n < |q| && Attempt(t, f, q, n, l)
    ensures LandFleet(f, Landing(Congested(l.fleet[q[n] := GoneAround(a, t)], q, q[n]),
                                 l.collected + [q[n]], l.bounced + [q[n]], l.landed))
  {
    var g := l.fleet[q[n] := GoneAround(a, t)];
    CongestedEvery(g, q, q[n]);
    assert FleetTimed(g);
  }

  lemma {:induction false} BouncedStatus(t: int, f: Fleet, q: seq<int>, n: nat, l: Landing, a: PlaneState)
    requires n < |q| && Attempt(t, f, q, n, l)
    requires a.interruptions == f[q[n]].interruptions
    ensures var l' := Landing(Congested(l.fleet[q[n] := GoneAround(a, t)], q, q[n]),
                              l.collected + [q[n]], l.bounced + [q[n]], l.landed);
      l'.fleet.Keys == f.Keys && LandStatus(f, l') && LandFrame(f, q, l')
  {
    CongestedEvery(l.fleet[q[n] := GoneAround(a, t)], q, q[n]);
  }

  lemma {:induction false} BouncedRecords(t: int, f: Fleet, q: seq<int>, n: nat, l: Landing, a: PlaneState)
    requires n < |q| && Attempt(t, f, q, n, l)
    requires a.interruptions == f[q[n]].interruptions
    ensures var l' := Landing(Congested(l.fleet[q[n] := GoneAround(a, t)], q, q[n]),
                              l.collected + [q[n]], l.bounced + [q[n]], l.landed);
      l'.fleet.Keys == f.Keys && LandRecords(t, f, l')
  {
    CongestedEvery(l.fleet[q[n] := GoneAround(a, t)], q, q[n]);
  }

  /** The pass keeps its invariant. */
  lemma {:induction false} LandStepKeeps(t: int, ok: bool, f: Fleet, q: seq<int>, n: nat, l: Landing)
    requires Listed(f, q) && Distinct(q) && n < |q| && FleetTimed(f)
    requires LandInvariant(t, f, q, n, l)
    ensures LandInvariant(t, f, q, n + 1, LandStep(t, ok, q, l, q[n]))
  {
    var id := q[n];
    LandNext(t, f, q, n, l);
    if l.fleet[id].status != Approaching {
      ListsSkip(f, q, n, l.collected, l.bounced, l.landed);
    } else {
      var a := Advanced(l.fleet[id], 1);
      if a.dist > 0.0 {
        ListsSkip(f, q, n, l.collected, l.bounced, l.landed);
        FlewOn(t, f, q, n, l, a);
      } else if ok {
        ListsNext(f, q, n, l, false);
        TouchedFleet(t, f, q, n, l, a);
      } else {
        ListsNext(f, q, n, l, true);
        BouncedFleet(t, f, q, n, l, a);
        BouncedStatus(t, f, q, n, l, a);
        BouncedRecords(t, f, q, n, l, a);
      }
    }
  }

  /** One more aircraft of the snapshot. */
  lemma {:induction false} LandingsNext(t: int, draws: nat -> real, f: Fleet, q: seq<int>, n: nat)
    requires Listed(f, q) && Distinct(q) && n < |q| && FleetTimed(f)
    requires LandInvariant(t, f, q, n, Landings(t, draws, f, q, n))
    ensures LandInvariant(t, f, q, n + 1, Landings(t, draws, f, q, n + 1))
  {
    LandStepKeeps(t, !Interrupted(draws(n)), f, q, n, Landings(t, draws, f, q, n));
  }

  /** By induction over the snapshot: the pass over q[..n] has its
      invariant. */
  lemma {:induction false} LandingsKeep(t: int, draws: nat -> real, f: Fleet, q: seq<int>, n: nat)
    requires Listed(f, q) && Distinct(q) && n <= |q| && FleetTimed(f)
    ensures LandInvariant(t, f, q, n, Landings(t, draws, f, q, n))
  {
    if n > 0 {
      LandingsKeep(t, draws, f, q, n - 1);
      LandingsNext(t, draws, f, q, n - 1);
    }
  }

  /** The position pass over the queue. */
  function WindPass(t: int, draws: nat -> real, w: Traffic): Landing
    {
    Landings(t, draws, w.fleet, w.queue, |w.queue|)
  }

  /** The traffic after the pass and `for plane in to_remove_landed: if
      plane in queue: queue.remove(plane)`; the interrupted aircraft were
      appended to `rejoining` as they went round. */
  function AfterLanding(w: Traffic, l: Landing): Traffic
  {
    Traffic(l.fleet, Without(w.queue, l.collected), w.side + l.bounced)
  }

  lemma {:induction false} LandedKeeps(t: int, draws: nat -> real, w: Traffic)
    requires Sound(w)
    ensures LandInvariant(t, w.fleet, w.queue, |w.queue|, WindPass(t, draws, w))
  {
    LandingsKeep(t, draws, w.fleet, w.queue, |w.queue|);
  }

  /** The pass with its removal keeps the traffic sound. */
  lemma {:induction false} AfterSound(t: int, w: Traffic, l: Landing, landed: nat, diverted: nat)
    requires Tallied(w, Rejoin, landed, diverted)
    requires LandInvariant(t, w.fleet, w.queue, |w.queue|, l)
    ensures Sound(AfterLanding(w, l))
  {
    var w' := AfterLanding(w, l);
    WithoutDistinct(w.queue, l.collected);
    forall x | x in l.bounced ensures x !in w.side {
      assert w.fleet[x].status == Approaching;
      assert x in w.side ==> x in WithStatus(w.fleet, Rejoin);
    }
    DistinctConcat(w.side, l.bounced);
    forall x ensures x in w'.queue <==> x in w.queue && x !in l.collected {
      WithoutMember(w.queue, l.collected, x);
    }
    forall k | 0 <= k < |w'.queue| ensures w'.queue[k] in w'.fleet {
      assert w'.queue[k] in w.queue;
    }
    forall k | 0 <= k < |w'.side| ensures w'.side[k] in w'.fleet && w'.side[k] !in w'.queue {
      if k < |w.side| {
        assert w'.side[k] == w.side[k];
        assert w'.side[k] !in w.queue;
      } else {
        assert w'.side[k] == l.bounced[k - |w.side|];
        assert w'.side[k] in l.collected;
      }
    }
  }

  /** Every aircraft's status after the pass, in terms of the sets of
      collected and interrupted aircraft. */
  lemma {:induction false} AfterStatus(t: int, w: Traffic, l: Landing)
    requires Sound(w)
    requires LandInvariant(t, w.fleet, w.queue, |w.queue|, l)
    ensures var c, b := Members(l.collected), Members(l.bounced);
      && l.fleet.Keys == w.fleet.Keys && b <= c && c <= WithStatus(w.fleet, Approaching)
      && forall x :: x in w.fleet ==>
           l.fleet[x].status == if x in b then Rejoin else if x in c then Landed else w.fleet[x].status
  {
    var c, b := Members(l.collected), Members(l.bounced);
    forall x | x in w.fleet
      ensures l.fleet[x].status == if x in b then Rejoin else if x in c then Landed else w.fleet[x].status
    {
    }
    forall x | x in c ensures x in WithStatus(w.fleet, Approaching) {
    }
    forall x | x in b ensures x in c {
      assert x in l.bounced;
    }
  }

  /** A status-class view of a pass that takes a set c of approaching
      aircraft out, the subset b of them to 'rejoin' and the rest to
      'landed'. */
  lemma {:induction false} ClassesOf(f: Fleet, f': Fleet, c: set<int>, b: set<int>)
    requires f'.Keys == f.Keys && b <= c && c <= WithStatus(f, Approaching)
    requires forall x :: x in f ==> f'[x].status == if x in b then Rejoin else if x in c then Landed else f[x].status
    ensures WithStatus(f', Approaching) == WithStatus(f, Approaching) - c
    ensures WithStatus(f', Rejoin) == WithStatus(f, Rejoin) + b
    ensures WithStatus(f', Landed) == WithStatus(f, Landed) + (c - b)
    ensures WithStatus(f', Holding) == WithStatus(f, Holding)
    ensures WithStatus(f', Montevideo) == WithStatus(f, Montevideo)
  {
    forall st: Status | st == Holding || st == Montevideo
      ensures WithStatus(f', st) == WithStatus(f, st)
    {
      forall x ensures x in WithStatus(f', st) <==> x in WithStatus(f, st) {
        if x in f && x in c {
          assert x in WithStatus(f, Approaching);
        }
      }
    }
    forall x ensures x in WithStatus(f', Approaching) <==> x in WithStatus(f, Approaching) - c {
      if x in c {
        assert x in WithStatus(f, Approaching);
      }
    }
    forall x ensures x in WithStatus(f', Rejoin) <==> x in WithStatus(f, Rejoin) + b {
      if x in b {
        assert x in WithStatus(f, Approaching);
      }
    }
    forall x ensures x in WithStatus(f', Landed) <==> x in WithStatus(f, Landed) + (c - b) {
      if x in c {
        assert x in WithStatus(f, Approaching);
      }
    }
  }

  /** The queue and side lists after the pass, as sets. */
  lemma {:induction false} AfterMembers(t: int, w: Traffic, l: Landing)
    requires Sound(w)
    requires LandInvariant(t, w.fleet, w.queue, |w.queue|, l)
    ensures Members(AfterLanding(w, l).queue) == Members(w.queue) - Members(l.collected)
    ensures Members(AfterLanding(w, l).side) == Members(w.side) + Members(l.bounced)
    ensures |Members(l.collected) - Members(l.bounced)| == l.landed
  {
    MembersWithout(w.queue, l.collected);
    MembersConcat(w.side, l.bounced);
    DistinctCard(l.collected);
    DistinctCard(l.bounced);
    forall x | x in Members(l.bounced) ensures x in Members(l.collected) {
      assert x in l.bounced;
    }
    assert Members(l.collected) == set x | x in l.collected;
    assert Members(l.bounced) == set x | x in l.bounced;
  }

  /** The pass with its removal keeps the tally: interrupted aircraft move
      from the queue to `rejoining`, and `landed_count` grows by the
      landings. */
  lemma {:induction false} AfterTally(t: int, draws: nat -> real, w: Traffic, landed: nat, diverted: nat)
    requires Tallied(w, Rejoin, landed, diverted)
    ensures var l := WindPass(t, draws, w);
      Tallied(AfterLanding(w, l), Rejoin, landed + l.landed, diverted)
  {
    var l := WindPass(t, draws, w);
    LandedKeeps(t, draws, w);
    AfterSound(t, w, l, landed, diverted);
    AfterStatus(t, w, l);
    ClassesOf(w.fleet, l.fleet, Members(l.collected), Members(l.bounced));
    AfterMembers(t, w, l);
    var c, b := Members(l.collected), Members(l.bounced);
    assert WithStatus(w.fleet, Landed) !! (c - b);
  }

  /** What one landing pass with its removals does to each aircraft: one
      that stays in the queue keeps its status; one that leaves it has
      landed at minute t, unflagged, and is on neither list, or has gone
      around to the tail of the rejoin list with its interruption counted;
      an aircraft outside the queue is untouched. */
  lemma {:induction false} WindPassOutcome(t: int, draws: nat -> real, w: Traffic)
    requires Sound(w)
    ensures var l := WindPass(t, draws, w); var w' := AfterLanding(w, l);
      && w'.fleet.Keys == w.fleet.Keys
      && (forall x :: x in w.fleet && x !in w.queue ==> w'.fleet[x] == w.fleet[x])
      && forall x :: x in w.queue ==>
           || (x in w'.queue && w'.fleet[x].status == w.fleet[x].status)
           || (&& x !in w'.queue && x !in w'.side && w'.fleet[x].status == Landed
               && w'.fleet[x].landedTime == Some(t) && !w'.fleet[x].inInterruption)
           || (&& x !in w'.queue && x in w'.side && w'.fleet[x].status == Rejoin
               && WentAround(t, w.fleet[x], w'.fleet[x]))
  {
    var l := WindPass(t, draws, w);
    var w' := AfterLanding(w, l);
    LandedKeeps(t, draws, w);
    forall x | x in w.queue
      ensures || (x in w'.queue && w'.fleet[x].status == w.fleet[x].status)
              || (&& x !in w'.queue && x !in w'.side && w'.fleet[x].status == Landed
                  && w'.fleet[x].landedTime == Some(t) && !w'.fleet[x].inInterruption)
              || (&& x !in w'.queue && x in w'.side && w'.fleet[x].status == Rejoin
                  && WentAround(t, w.fleet[x], w'.fleet[x]))
    {
      WithoutMember(w.queue, l.collected, x);
      assert x in w.fleet && x !in w.side;
      assert x in l.bounced ==> x in l.collected;
    }
  }

  /** Congesting the aircraft q[k] extends the congestion of q[..k]. */
  lemma {:induction false} CongestedNext(f: Fleet, q: seq<int>, id: int, k: nat)
    requires Distinct(q) && k < |q|
    ensures var g, x := Congested(f, q[..k], id), q[k];
      && (x in f ==> x in g && g[x] == f[x])
      && Congested(f, q[..k + 1], id) ==
           if x in f && x != id && f[x].status == Approaching then g[x := Congest(f[x])] else g
  {
    var x := q[k];
    assert q[..k + 1] == q[..k] + [x];
    DistinctIndex(q);
    assert x !in q[..k];
  }

  /** The congestion loop `for other in queue`. */
  method Congestion(f: Fleet, q: seq<int>, id: int) returns (g: Fleet)
    requires Distinct(q)
    ensures g == Congested(f, q, id)
  {
    g := f;
    assert q[..0] == [];
    assert Congested(f, q[..0], id) == f;
    var k := 0;
    while k < |q|
      invariant k <= |q|
      invariant g == Congested(f, q[..k], id)
    {
      CongestedNext(f, q, id, k);
      var x := q[k];
      if x in g && x != id && g[x].status == Approaching {
        g := g[x := Congest(g[x])];
      }
      k := k + 1;
    }
    assert q[..k] == q;
  }

  /** One iteration of the position pass: fly the aircraft one minute and,
      if it reached the runway, make its landing attempt with the draw. */
  method LandOne(t: int, draw: real, q: seq<int>, l: Landing, id: int) returns (l': Landing)
    requires Distinct(q)
    ensures l' == LandStep(t, !Interrupted(draw), q, l, id)
  {
    l' := l;
    if id in l.fleet && l.fleet[id].status == Approaching {
      var a := Advanced(l.fleet[id], 1);
      if a.dist <= 0.0 {
        if draw >= InterruptionProbability {
          l' := Landing(l.fleet[id := Touched(a, t)], l.collected + [id], l.bounced, l.landed + 1);
        } else {
          var g := Congestion(l.fleet[id := GoneAround(a, t)], q, id);
          l' := Landing(g, l.collected + [id], l.bounced + [id], l.landed);
        }
      } else {
        l' := l.(fleet := l.fleet[id := a]);
      }
    }
  }

  /** The position pass over `queue[:]`. */
  method LandingPass(t: int, draws: nat -> real, w: Traffic) returns (l: Landing)
    requires Sound(w)
    ensures l == WindPass(t, draws, w)
  {
    var q := w.queue;
    l := Landing(w.fleet, [], [], 0);
    var i := 0;
    while i < |q|
      invariant i <= |q|
      invariant l == Landings(t, draws, w.fleet, q, i)
    {
      l := LandOne(t, draws(i), q, l, q[i]);
      i := i + 1;
    }
  }

  /** The state of the windy simulator: the simulation state of the
      interactive simulator and `interrupciones_count`. */
  datatype WindBoard = WindBoard(b: Board, interrupted: nat)

  /** The position pass and its removal on the simulator's state, each
      interrupted landing counted in `interrupciones_count`. */
  function Grounded(t: int, draws: nat -> real, d: WindBoard): WindBoard
    requires Sound(d.b.w)
  {
    var l := WindPass(t, draws, d.b.w);
    WindBoard(d.b.(w := AfterLanding(d.b.w, l), landed := d.b.landed + l.landed), d.interrupted + |l.bounced|)
  }

  /** The pass keeps the board counted: every aircraft stays known,
      `landed_count` counts the landings and the interrupted aircraft are
      counted on the rejoin list. */
  lemma {:induction false} GroundedKeeps(t: int, draws: nat -> real, d: WindBoard)
    requires Counted(d.b)
    ensures var r := Grounded(t, draws, d);
      Counted(r.b) && r.b.landed >= d.b.landed && r.interrupted >= d.interrupted
  {
    LandedKeeps(t, draws, d.b.w);
    AfterTally(t, draws, d.b.w, d.b.landed, d.b.diverted);
  }

  /** The tick logic of the windy update_simulation for a new minute t. */
  function WindTick(t: int, arrives: bool, draws: nat -> real, d: WindBoard): (r: WindBoard)
    requires Counted(d.b)
    ensures Counted(r.b)
    ensures r.b.nextId == (if arrives then d.b.nextId + 1 else d.b.nextId)
    ensures r.b.landed >= d.b.landed && r.b.diverted >= d.b.diverted && r.interrupted >= d.interrupted
  {
    var b1 := Arrive(t, true, arrives, d.b);
    EjectKeeps(t, b1);
    var b2 := b1.(w := Separated(true, t, Rejoin, b1.w));
    RejoinKeeps(t, true, b2);
    var b3 := Rejoined(t, true, b2);
    GroundedKeeps(t, draws, d.(b := b3));
    Grounded(t, draws, d.(b := b3))
  }

  /** The position pass with `landed_count`, the rejoin appends, the
      interruption count and the removal, as the windy simulator writes
      them. */
  method RunGround(t: int, draws: nat -> real, d: WindBoard) returns (d': WindBoard)
    requires Sound(d.b.w)
    ensures d' == Grounded(t, draws, d)
  {
    var l := LandingPass(t, draws, d.b.w);
    var queue := RemoveAll(d.b.w.queue, l.collected);
    d' := WindBoard(d.b.(w := Traffic(l.fleet, queue, d.b.w.side + l.bounced), landed := d.b.landed + l.landed),
                    d.interrupted + |l.bounced|);
  }

  /** The windy tick logic, run by its passes. */
  method RunWindTick(t: int, arrives: bool, draws: nat -> real, d: WindBoard) returns (d': WindBoard)
    requires Counted(d.b)
    ensures d' == WindTick(t, arrives, draws, d)
  {
    var b1 := RunArrive(t, true, arrives, d.b);
    EjectKeeps(t, b1);
    var w := SeparateAndRemove(true, t, Rejoin, b1.w);
    var b2 := b1.(w := w);
    RejoinKeeps(t, true, b2);
    var b3 := RunRejoin(t, true, b2);
    GroundedKeeps(t, draws, d.(b := b3));
    d' := RunGround(t, draws, d.(b := b3));
  }

  /** What the windy update_simulation does to the simulator's state, the
      clock and the running flag, with the clock of the interactive
      simulator. */
  function WindUpdated(d: WindBoard, time: real, step: real, running: bool, paused: bool,
                       totalMinutes: int, arrives: bool, draws: nat -> real): (r: (WindBoard, real, bool))
    requires Counted(d.b)
    ensures Counted(r.0.b)
  {
    var p := Clock(time, step, running, paused, totalMinutes);
    (if p.NewMinute? then WindTick(p.t, arrives, draws, d) else d, ClockTime(p, time, step), StillRunning(p, running))
  }

  /** The windy update_simulation on the values of the fields. */
  method RunWindUpdate(d: WindBoard, time: real, step: real, running: bool, paused: bool,
                       totalMinutes: int, arrives: bool, draws: nat -> real)
    returns (d': WindBoard, time': real, running': bool)
    requires Counted(d.b)
    ensures (d', time', running') == WindUpdated(d, time, step, running, paused, totalMinutes, arrives, draws)
  {
    var p;
    p, time', running' := RunClock(time, step, running, paused, totalMinutes);
    d' := d;
    if p.NewMinute? {
      d' := RunWindTick(p.t, arrives, draws, d);
    }
  }

  /** start_simulation as written: every list and counter is reset except
      `rejoining`, whose aircraft stay in the simulation. */
  function RestartAsWritten(b: Board): Board
  {
    Board(Traffic(map x | x in b.w.fleet && x in b.w.side :: b.w.fleet[x], [], b.w.side), [], 0, 0, 0, 1)
  }

  /** A run with one aircraft in the rejoin list, restarted as written: the
      new run counts no aircraft created while one is on screen, and the
      next aircraft it creates gets the id of the one left over. */
  lemma {:induction false} RestartKeepsRejoining()
    ensures var s := Arrival(1, 0).(status := Rejoin, rejoinStartTime := Some(0));
      var b := Board(Traffic(map[1 := s], [], [1]), [1], 0, 0, 1, 2);
      var r := RestartAsWritten(b);
      && Counted(b) && !Counted(r)
      && r.spawned != |r.w.queue| + |r.w.side| + r.landed + r.diverted
      && r.nextId in r.w.fleet
  {
    var s := Arrival(1, 0).(status := Rejoin, rejoinStartTime := Some(0));
    var b := Board(Traffic(map[1 := s], [], [1]), [1], 0, 0, 1, 2);
    assert Ids(1) == [1];
    assert Members([1]) == {1};
    assert WithStatus(b.w.fleet, Rejoin) == {1};
    assert WithStatus(b.w.fleet, Approaching) == {};
    assert WithStatus(b.w.fleet, Holding) == {};
    assert WithStatus(b.w.fleet, Landed) == {};
    assert WithStatus(b.w.fleet, Montevideo) == {};
    var r := RestartAsWritten(b);
    assert r.w.fleet == map[1 := s];
  }

  class WindySimulation {
    var fleet: Fleet
    var queue: seq<int>
    var rejoining: seq<int>
    var allPlanes: seq<int>
    /** The aircraft on screen. */
    var planes: seq<int>
    var currentTime: real
    var timeSpeed: real
    var running: bool
    var paused: bool
    const totalMinutes: int
    var nextId: int
    var landedCount: nat
    var montevideoCount: nat
    var totalSpawned: nat
    var interruptionsCount: nat

    /** The simulator's state. */
    function BoardOf(): WindBoard
      reads this
    {
      WindBoard(Board(Traffic(fleet, queue, rejoining), allPlanes, landedCount, montevideoCount, totalSpawned, nextId),
                interruptionsCount)
    }

    /** The class invariant: the simulation state is counted, and the
        visible list is the queue followed by the rejoin list. */
    predicate Valid()
      reads this
    {
      Counted(BoardOf().b) && planes == queue + rejoining
    }

    /** __init__: as the interactive simulator, with no interruption
        counted. */
    constructor ()
      ensures Valid() && BoardOf() == WindBoard(Fresh(), 0) && planes == [] && currentTime == 0.0
      ensures timeSpeed == 0.2 && totalMinutes == 1080 && !running && !paused
    {
      fleet, queue, rejoining, allPlanes, planes := map[], [], [], [], [];
      currentTime, timeSpeed := 0.0, 0.2;
      running, paused := false, false;
      totalMinutes := 1080;
      nextId, landedCount, montevideoCount, totalSpawned, interruptionsCount := 1, 0, 0, 0, 0;
    }

    /** start_simulation, with `rejoining` reset as well (see
        RestartAsWritten): a fresh run, running and not paused; the time
        speed is kept. */
    method StartSimulation()
      modifies this`fleet, this`queue, this`rejoining, this`allPlanes, this`planes,
               this`landedCount, this`montevideoCount, this`totalSpawned, this`nextId,
               this`interruptionsCount, this`currentTime, this`running, this`paused
      ensures Valid() && BoardOf() == WindBoard(Fresh(), 0) && planes == [] && currentTime == 0.0
      ensures running && !paused
    {
      currentTime, running, paused := 0.0, true, false;
      Show(WindBoard(Fresh(), 0));
    }

    /** update_simulation(dt), with `arrives` the arrival draw of this
        minute and `draws(i)` the landing draw of the aircraft at position
        i of the position pass. The pause flag and the time speed are left
        alone. */
    method UpdateSimulation(dt: real, arrives: bool, draws: nat -> real)
      requires Valid()
      modifies this`fleet, this`queue, this`rejoining, this`allPlanes, this`planes,
               this`landedCount, this`montevideoCount, this`totalSpawned, this`nextId,
               this`interruptionsCount, this`currentTime, this`running
      ensures Valid()
      ensures (BoardOf(), currentTime, running) ==
        WindUpdated(old(BoardOf()), old(currentTime), dt * old(timeSpeed), old(running), old(paused),
                    totalMinutes, arrives, draws)
    {
      var d, time, run := RunWindUpdate(BoardOf(), currentTime, dt * timeSpeed, running, paused,
                                        totalMinutes, arrives, draws);
      currentTime, running := time, run;
      Show(d);
    }

    /** The new state, and `self.planes = [p for p in self.queue if
        p.status == 'approaching'] + self.rejoining`. */
    method Show(d: WindBoard)
      requires Counted(d.b)
      modifies this`fleet, this`queue, this`rejoining, this`allPlanes, this`planes,
               this`landedCount, this`montevideoCount, this`totalSpawned, this`nextId,
               this`interruptionsCount
      ensures Valid() && BoardOf() == d
    {
      var b := d.b;
      VisibleIsQueueAndRejoin(b);
      var visible := ApproachingOnly(b.w.fleet, b.w.queue) + b.w.side;
      fleet, queue, rejoining, allPlanes := b.w.fleet, b.w.queue, b.w.side, b.allPlanes;
      landedCount, montevideoCount, totalSpawned, nextId := b.landed, b.diverted, b.spawned, b.nextId;
      interruptionsCount := d.interrupted;
      planes := visible;
    }
  }
}
