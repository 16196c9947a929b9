/** The passes that walk the queue and change each approaching aircraft on
    its own: the position pass that ends an open tick, and the two
    closure passes of the storm variants. The aircraft that leave the
    approach (landed, or diverted during a closure) are collected and then
    removed from the queue. The interrupted landings of the windy variant,
    where one aircraft changes the others, are in module Windy. */
module Sweep {
  import opened Options
  import opened Kinematics
  import opened Queues
  import opened Aircraft
  import opened Fuel
  import opened Traffic

  /** What a pass does to each approaching aircraft of the queue. */
  datatype Rule =
    | Plain    // update_position(1): main.py, Ejercicio1/simulador.py
    | Stamped  // update_position(1), then dist <= 0 lands it at minute t: both storm variants
    | Burning  // PlaneWithFuel.update_position(1): ejercicio7.py
    | WaitOut  // a closed minute of ejercicio6.py: wait, and divert on a long wait
    | CloseIn  // a closed minute of Ejercicio6/ejercicio6.py: fly, and divert within 10 nm

  predicate Flying(rule: Rule)
  {
    rule.Plain? || rule.Stamped? || rule.Burning?
  }

  /** Where the aircraft a pass collects have gone. */
  function Outcome(rule: Rule): Status
  {
    if Flying(rule) then Landed else Montevideo
  }

  /** One minute of flight in the open approach. */
  function Fly(rule: Rule, t: int, s: PlaneState): (r: PlaneState)
    requires Flying(rule)
    ensures r.dist <= s.dist
    ensures r.status == Landed <==> s.status == Landed || r.dist == 0.0
    ensures r.status != Landed ==> r.status == s.status
    ensures rule == Stamped && s.status != Landed && r.status == Landed ==> r.landedTime == Some(t)
    ensures rule != Stamped && s.status != Landed && r.status == Landed ==>
      r.landedTime == Some(LastTime(s.positions) + 1)
    ensures r.positions == s.positions + [(LastTime(s.positions) + 1, r.dist)]
    ensures r.fuel == if rule == Burning then s.fuel - 45.0 else s.fuel
    ensures Timed(KinOf(s)) ==> Timed(KinOf(r))
  {
    match rule
    case Plain => Advanced(s, 1)
    case Stamped =>
      var r := Advanced(s, 1);
      if r.dist <= 0.0 then r.(status := Landed, landedTime := Some(t)) else r
    case Burning => FuelAdvanced(s, 1)
  }

  /** The ejercicio6.py closure limits: a wait over 60 minutes, or over 30
      within 10 nm, sends the aircraft to Montevideo. */
  const MaxClosureWait: nat := 60
  const NearClosureWait: nat := 30
  const NearDist: real := 10.0

  predicate WaitedOut(wait: nat, dist: real)
  {
    wait > MaxClosureWait || (dist < NearDist && wait > NearClosureWait)
  }

  /** A closed minute of ejercicio6.py: the aircraft holds its position,
      one more minute of waiting is counted and it is marked affected. */
  function Wait(t: int, s: PlaneState): (r: PlaneState)
    ensures r.closureWait == s.closureWait + 1 && r.stormAffected
    ensures WaitedOut(r.closureWait, s.dist) ==> r.status == Montevideo && r.montevideoTime == Some(t)
    ensures !WaitedOut(r.closureWait, s.dist) ==> r.status == s.status && r.montevideoTime == s.montevideoTime
    ensures r.(closureWait := s.closureWait, stormAffected := s.stormAffected,
               status := s.status, montevideoTime := s.montevideoTime) == s
  {
    var r := s.(closureWait := s.closureWait + 1, stormAffected := true);
    if WaitedOut(r.closureWait, r.dist) then r.(status := Montevideo, montevideoTime := Some(t)) else r
  }

  /** A closed minute of Ejercicio6/ejercicio6.py: the aircraft flies one
      minute and is diverted once within 10 nm, even if it reached the
      runway (its landing minute then stays recorded). */
  function CloseInOn(t: int, s: PlaneState): (r: PlaneState)
    ensures r.dist == Advanced(s, 1).dist && r.positions == Advanced(s, 1).positions
    ensures r.dist <= NearDist ==> r.status == Montevideo && r.montevideoTime == Some(t)
    ensures r.dist > NearDist ==> r == Advanced(s, 1) && r.status == s.status
    ensures Timed(KinOf(s)) ==> Timed(KinOf(r))
  {
    var r := Advanced(s, 1);
    if r.dist <= NearDist then r.(status := Montevideo, montevideoTime := Some(t)) else r
  }

  /** What the pass does to one approaching aircraft. */
  function Step(rule: Rule, t: int, s: PlaneState): (r: PlaneState)
    ensures s.status == Approaching ==> r.status == Approaching || r.status == Outcome(rule)
    ensures Timed(KinOf(s)) ==> Timed(KinOf(r))
  {
    match rule
    case WaitOut => Wait(t, s)
    case CloseIn => CloseInOn(t, s)
    case _ => Fly(rule, t, s)
  }

  /** The pass moves this aircraft to its `to_remove` list. */
  predicate Leaves(rule: Rule, t: int, s: PlaneState)
  {
    s.status == Approaching && Step(rule, t, s).status != Approaching
  }

  /** The fleet after the pass over queue `q`: each approaching aircraft of
      `q` has taken its step, every other aircraft is as it was. */
  function Stepped(rule: Rule, t: int, f: Fleet, q: seq<int>): Fleet
  {
    map x | x in f :: if x in q && f[x].status == Approaching then Step(rule, t, f[x]) else f[x]
  }

  function LeaveFlags(rule: Rule, t: int, f: Fleet, q: seq<int>): (r: seq<bool>)
    requires Listed(f, q)
    ensures |r| == |q| && forall k :: 0 <= k < |q| ==> (r[k] <==> Leaves(rule, t, f[q[k]]))
  {
    seq(|q|, k requires 0 <= k < |q| => Leaves(rule, t, f[q[k]]))
  }

  /** The `to_remove` list of the pass, in queue order. */
  function Collected(rule: Rule, t: int, w: Traffic): seq<int>
    requires Sound(w)
  {
    Select(w.queue, LeaveFlags(rule, t, w.fleet, w.queue), |w.queue|)
  }

  /** The traffic after the pass and the removal of what it collected. */
  function Swept(rule: Rule, t: int, w: Traffic): Traffic
    requires Sound(w)
  {
    Traffic(Stepped(rule, t, w.fleet, w.queue), Without(w.queue, Collected(rule, t, w)), w.side)
  }

  /** An aircraft is collected exactly when it is queued and its step takes
      it out of the approach. */
  lemma {:induction false} CollectedMember(rule: Rule, t: int, w: Traffic, x: int)
    requires Sound(w)
    ensures x in Collected(rule, t, w) <==> x in w.queue && Leaves(rule, t, w.fleet[x])
  {
    var flags := LeaveFlags(rule, t, w.fleet, w.queue);
    SelectMember(w.queue, flags, |w.queue|, x);
    if x in w.queue {
      var k :| 0 <= k < |w.queue| && w.queue[k] == x;
      assert flags[k] == Leaves(rule, t, w.fleet[x]);
    }
  }

  /** Every aircraft after the pass: the collected ones are exactly the
      queued ones whose step ends their approach, and they take the rule's
      outcome status; the other queued ones have taken their step and are
      still approaching; nothing else changes. */
  lemma {:induction false} SweptEvery(rule: Rule, t: int, w: Traffic)
    requires Sound(w)
    ensures var f, f' := w.fleet, Swept(rule, t, w).fleet;
      var cs := Collected(rule, t, w);
      && f'.Keys == f.Keys
      && (forall x :: x in cs <==> x in w.queue && Leaves(rule, t, f[x]))
      && (forall x :: x in f && x !in w.queue ==> f'[x] == f[x])
      && (forall x :: x in w.queue && f[x].status == Approaching ==> f'[x] == Step(rule, t, f[x]))
      && (forall x :: x in f ==> f'[x].status == if x in cs then Outcome(rule) else f[x].status)
      && (forall x :: x in cs ==> x in f && f[x].status == Approaching)
      && FleetTimed(f')
  {
    forall x ensures x in Collected(rule, t, w) <==> x in w.queue && Leaves(rule, t, w.fleet[x]) {
      CollectedMember(rule, t, w, x);
    }
  }

  /** The pass with its removal keeps the traffic sound. */
  lemma {:induction false} SweptSound(rule: Rule, t: int, w: Traffic)
    requires Sound(w)
    ensures Sound(Swept(rule, t, w))
  {
    var w' := Swept(rule, t, w);
    var cs := Collected(rule, t, w);
    SweptEvery(rule, t, w);
    WithoutDistinct(w.queue, cs);
    forall x ensures x in w'.queue <==> x in w.queue && x !in cs {
      WithoutMember(w.queue, cs, x);
    }
    forall k | 0 <= k < |w'.queue| ensures w'.queue[k] in w'.fleet {
      assert w'.queue[k] in w.queue;
    }
    forall k | 0 <= k < |w'.side| ensures w'.side[k] in w'.fleet && w'.side[k] !in w'.queue {
      assert w'.side[k] !in w.queue;
    }
  }

  /** The status classes after the pass: the collected aircraft move from
      'approaching' to the rule's outcome, every other class is unchanged. */
  lemma {:induction false} SweptClasses(rule: Rule, t: int, w: Traffic)
    requires Sound(w)
    ensures var f, f' := w.fleet, Swept(rule, t, w).fleet;
      var cs := Members(Collected(rule, t, w));
      && cs <= WithStatus(f, Approaching)
      && WithStatus(f', Approaching) == WithStatus(f, Approaching) - cs
      && WithStatus(f', Outcome(rule)) == WithStatus(f, Outcome(rule)) + cs
      && (forall st :: st != Approaching && st != Outcome(rule) ==> WithStatus(f', st) == WithStatus(f, st))
  {
    SweptEvery(rule, t, w);
    MovedClasses(w.fleet, Swept(rule, t, w).fleet, Members(Collected(rule, t, w)), Outcome(rule));
  }

  /** The queue and class facts the tally needs after the pass. */
  lemma {:induction false} SweptCensus(rule: Rule, t: int, w: Traffic)
    requires Sound(w)
    ensures var f, f' := w.fleet, Swept(rule, t, w).fleet;
      var cs := Collected(rule, t, w);
      && Members(Swept(rule, t, w).queue) == Members(w.queue) - Members(cs)
      && Members(cs) <= WithStatus(f, Approaching)
      && |Members(cs)| == |cs|
  {
    var cs := Collected(rule, t, w);
    SweptClasses(rule, t, w);
    MembersWithout(w.queue, cs);
    SelectDistinct(w.queue, LeaveFlags(rule, t, w.fleet, w.queue), |w.queue|);
    DistinctCard(cs);
    assert Members(cs) == set x | x in cs;
  }

  /** The pass with its removal keeps the tally: the collected aircraft
      leave the queue and are counted as landed, or as diverted when the
      rule is a closure rule. */
  lemma {:induction false} SweptTally(rule: Rule, t: int, w: Traffic, sideStatus: Status, landed: nat, diverted: nat)
    requires Tallied(w, sideStatus, landed, diverted) && (sideStatus == Rejoin || sideStatus == Holding)
    ensures var n := |Collected(rule, t, w)|;
      Tallied(Swept(rule, t, w), sideStatus,
              if Flying(rule) then landed + n else landed,
              if Flying(rule) then diverted else diverted + n)
  {
    var cs := Collected(rule, t, w);
    SweptSound(rule, t, w);
    SweptClasses(rule, t, w);
    SweptCensus(rule, t, w);
    CensusMove(w, Swept(rule, t, w), sideStatus, landed, diverted, Members(cs), Outcome(rule));
  }

  /** Stepping the aircraft q[i] extends the pass over q[..i] by one. */
  lemma {:induction false} SteppedNext(rule: Rule, t: int, f: Fleet, q: seq<int>, i: nat)
    requires Listed(f, q) && Distinct(q) && i < |q|
    ensures q[i] in Stepped(rule, t, f, q[..i]) && Stepped(rule, t, f, q[..i])[q[i]] == f[q[i]]
    ensures var g := Stepped(rule, t, f, q[..i]);
      Stepped(rule, t, f, q[..i + 1]) ==
        if f[q[i]].status == Approaching then g[q[i] := Step(rule, t, f[q[i]])] else g
  {
    var x := q[i];
    forall k | 0 <= k < i ensures q[..i][k] != x {
      DistinctAt(q, k, i);
    }
    assert q[..i + 1] == q[..i] + [x];
    SteppedSnoc(rule, t, f, q[..i], x);
  }

  /** Extending the pass by one aircraft not yet passed steps that one
      aircraft only. */
  lemma {:induction false} SteppedSnoc(rule: Rule, t: int, f: Fleet, p: seq<int>, x: int)
    requires x in f && x !in p
    ensures x in Stepped(rule, t, f, p) && Stepped(rule, t, f, p)[x] == f[x]
    ensures var g := Stepped(rule, t, f, p);
      Stepped(rule, t, f, p + [x]) ==
        if f[x].status == Approaching then g[x := Step(rule, t, f[x])] else g
  {
    var g, g' := Stepped(rule, t, f, p), Stepped(rule, t, f, p + [x]);
    var h := if f[x].status == Approaching then g[x := Step(rule, t, f[x])] else g;
    forall y | y in f ensures g'[y] == h[y] {
      assert y in p + [x] <==> y in p || y == x;
    }
    assert g'.Keys == h.Keys;
  }

  /** The number of approaching aircraft among q[..n]: the aircraft a pass
      touches. */
  function ApproachingIn(f: Fleet, q: seq<int>, n: nat): (r: nat)
    requires Listed(f, q) && n <= |q|
    ensures r <= n
  {
    if n == 0 then 0 else ApproachingIn(f, q, n - 1) + if f[q[n - 1]].status == Approaching then 1 else 0
  }

  /** In a tallied traffic every queued aircraft is approaching, so a pass
      touches all of them. */
  lemma {:induction false} ApproachingAll(f: Fleet, q: seq<int>, n: nat)
    requires Listed(f, q) && n <= |q|
    requires forall k :: 0 <= k < |q| ==> f[q[k]].status == Approaching
    ensures ApproachingIn(f, q, n) == n
  {
    if n > 0 {
      ApproachingAll(f, q, n - 1);
    }
  }

  ghost predicate SweepProgress(rule: Rule, t: int, w0: Traffic, i: nat, fleet: Fleet, collected: seq<int>, touched: nat)
    requires Sound(w0) && i <= |w0.queue|
  {
    && fleet == Stepped(rule, t, w0.fleet, w0.queue[..i])
    && collected == Select(w0.queue, LeaveFlags(rule, t, w0.fleet, w0.queue), i)
    && touched == ApproachingIn(w0.fleet, w0.queue, i)
  }

  /** One iteration of `for plane in queue[:]`. */
  method SweepStep(rule: Rule, t: int, ghost w0: Traffic, i: nat, id: int, fleet: Fleet, collected: seq<int>, touched: nat)
    returns (fleet': Fleet, collected': seq<int>, touched': nat)
    requires Sound(w0) && i < |w0.queue| && id == w0.queue[i]
    requires SweepProgress(rule, t, w0, i, fleet, collected, touched)
    ensures SweepProgress(rule, t, w0, i + 1, fleet', collected', touched')
  {
    SteppedNext(rule, t, w0.fleet, w0.queue, i);
    fleet', collected', touched' := fleet, collected, touched;
    if fleet[id].status == Approaching {
      var s := Step(rule, t, fleet[id]);
      fleet' := fleet[id := s];
      touched' := touched + 1;
      if s.status != Approaching {
        collected' := collected + [id];
      }
    }
  }

  /** The pass: step every approaching aircraft of the queue, count them,
      and collect those whose approach ends. */
  method SweepPass(rule: Rule, t: int, w0: Traffic) returns (fleet: Fleet, collected: seq<int>, touched: nat)
    requires Sound(w0)
    ensures fleet == Swept(rule, t, w0).fleet && collected == Collected(rule, t, w0)
    ensures touched == ApproachingIn(w0.fleet, w0.queue, |w0.queue|)
  {
    fleet, collected, touched := w0.fleet, [], 0;
    assert w0.fleet == Stepped(rule, t, w0.fleet, w0.queue[..0]);
    var i := 0;
    while i < |w0.queue|
      invariant i <= |w0.queue|
      invariant SweepProgress(rule, t, w0, i, fleet, collected, touched)
    {
      fleet, collected, touched := SweepStep(rule, t, w0, i, w0.queue[i], fleet, collected, touched);
      i := i + 1;
    }
    assert w0.queue[..i] == w0.queue;
  }

  /** The pass followed by `for plane in to_remove: if plane in queue:
      queue.remove(plane)`. */
  method SweepAndRemove(rule: Rule, t: int, w: Traffic) returns (w': Traffic, collected: seq<int>, touched: nat)
    requires Sound(w)
    ensures w' == Swept(rule, t, w) && collected == Collected(rule, t, w)
    ensures touched == ApproachingIn(w.fleet, w.queue, |w.queue|)
  {
    var fleet;
    fleet, collected, touched := SweepPass(rule, t, w);
    var queue := RemoveAll(w.queue, collected);
    w' := Traffic(fleet, queue, w.side);
  }

  ghost predicate InlineProgress(t: int, w0: Traffic, i: nat, fleet: Fleet, queue: seq<int>, landed: seq<int>)
    requires Sound(w0) && i <= |w0.queue|
  {
    && fleet == Stepped(Plain, t, w0.fleet, w0.queue[..i])
    && landed == Select(w0.queue, LeaveFlags(Plain, t, w0.fleet, w0.queue), i)
    && queue == Without(w0.queue, landed)
  }

  /** One iteration of main.py's second position pass, which removes a
      landed aircraft from the live queue as soon as it lands. */
  method InlineStep(t: int, ghost w0: Traffic, i: nat, id: int, fleet: Fleet, queue: seq<int>, ghost landed: seq<int>)
    returns (fleet': Fleet, queue': seq<int>, ghost landed': seq<int>)
    requires Sound(w0) && i < |w0.queue| && id == w0.queue[i]
    requires InlineProgress(t, w0, i, fleet, queue, landed)
    ensures InlineProgress(t, w0, i + 1, fleet', queue', landed')
  {
    ghost var flags := LeaveFlags(Plain, t, w0.fleet, w0.queue);
    SteppedNext(Plain, t, w0.fleet, w0.queue, i);
    fleet', queue', landed' := fleet, queue, landed;
    if fleet[id].status == Approaching {
      var s := Step(Plain, t, fleet[id]);
      fleet' := fleet[id := s];
      if s.status != Approaching {
        landed' := landed + [id];
        SelectMember(w0.queue, flags, i, id);
        if id in landed {
          var k :| 0 <= k < i && w0.queue[k] == id;
          DistinctAt(w0.queue, k, i);
        }
        WithoutMember(w0.queue, landed, id);
        WithoutStep(w0.queue, landed, id);
        queue' := RemoveFirst(queue, id);
      }
    }
  }

  /** main.py's second position pass: the same flight and the same
      removals as `SweepAndRemove` with the plain rule. */
  method LandRemovingInline(t: int, w: Traffic) returns (w': Traffic)
    requires Sound(w)
    ensures w' == Swept(Plain, t, w)
  {
    var fleet, queue := w.fleet, w.queue;
    ghost var landed: seq<int> := [];
    InlineStart(t, w);
    var i := 0;
    while i < |w.queue|
      invariant i <= |w.queue|
      invariant InlineProgress(t, w, i, fleet, queue, landed)
    {
      fleet, queue, landed := InlineStep(t, w, i, w.queue[i], fleet, queue, landed);
      i := i + 1;
    }
    InlineDone(t, w, fleet, queue, landed);
    w' := Traffic(fleet, queue, w.side);
  }

  /** Before the first aircraft nothing has flown or left. */
  lemma {:induction false} InlineStart(t: int, w: Traffic)
    requires Sound(w)
    ensures InlineProgress(t, w, 0, w.fleet, w.queue, [])
  {
    assert w.fleet == Stepped(Plain, t, w.fleet, w.queue[..0]);
    WithoutNone(w.queue, []);
  }

  /** At the end of the queue the inline pass has done what the pass with
      a separate removal does. */
  lemma {:induction false} InlineDone(t: int, w: Traffic, fleet: Fleet, queue: seq<int>, landed: seq<int>)
    requires Sound(w) && InlineProgress(t, w, |w.queue|, fleet, queue, landed)
    ensures Traffic(fleet, queue, w.side) == Swept(Plain, t, w)
  {
    assert w.queue[..|w.queue|] == w.queue;
  }
}
