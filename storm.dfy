/** simulate_storm_closure, in its two versions: ejercicio6.py, where the
    aircraft hold their position while the airport is closed and are
    diverted after a long wait, and Ejercicio6/ejercicio6.py, where they
    keep flying and are diverted once within 10 nm, and where the start of
    the closure may be drawn at random. Outside the closure both run the
    same open minute: the strict separation pass, the rejoin pass (without
    position samples) and a position pass that stamps each landing with
    the current minute. Arrivals are appended to the queue as created,
    without the 4-minute check. */
module Storm {
  import opened Options
  import opened Queues
  import opened Aircraft
  import opened Traffic
  import opened Ejection
  import opened Rejoin
  import opened Sweep
  import opened Intake
  import opened Visual

  /** `aeropuerto_cerrado = storm_start <= t < storm_end`, with storm_end =
      storm_start + storm_duration. */
  predicate Closed(t: int, start: int, duration: int)
  {
    start <= t < start + duration
  }

  /** The closure rules: WaitOut for ejercicio6.py, CloseIn for
      Ejercicio6/ejercicio6.py. */
  predicate ClosureRule(rule: Rule)
  {
    rule == WaitOut || rule == CloseIn
  }

  /** The run's state: the simulation proper and the three storm counters
      planes_afectados, tiempo_espera_total and max_cola_durante_cierre. */
  datatype StormBoard = StormBoard(b: Board, affected: nat, waited: nat, maxQueue: nat)

  function MaxNat(a: nat, b: nat): (r: nat)
    ensures r >= a && r >= b && (r == a || r == b)
  {
    if a >= b then a else b
  }

  /** An open minute, after the arrival: strict separation, the rejoin
      pass and the stamped position pass, each followed by its removals. */
  function Open(t: int, b: Board): (r: Board)
    requires Counted(b)
    ensures Counted(r) && r.nextId == b.nextId && r.diverted >= b.diverted
  {
    EjectKeeps(t, b);
    var b1 := b.(w := Separated(true, t, Rejoin, b.w));
    RejoinKeeps(t, false, b1);
    var b2 := Rejoined(t, false, b1);
    FlownKeeps(Stamped, t, b2);
    Flown(Stamped, t, b2)
  }

  /** A closed minute, after the arrival: the queue length is recorded,
      the closure pass runs and the aircraft it takes out are counted as
      diverted. ejercicio6.py counts every approaching aircraft of the
      queue as affected and as one minute of waiting; Ejercicio6/ejercicio6.py
      counts the diverted ones as affected and no waiting. */
  function Shut(rule: Rule, t: int, b: Board, d: StormBoard): StormBoard
    requires ClosureRule(rule) && Sound(b.w)
  {
    var touched := ApproachingIn(b.w.fleet, b.w.queue, |b.w.queue|);
    var out := |Collected(rule, t, b.w)|;
    StormBoard(Flown(rule, t, b),
               d.affected + (if rule == WaitOut then touched else out),
               d.waited + (if rule == WaitOut then touched else 0),
               MaxNat(d.maxQueue, |b.w.queue|))
  }

  /** A closed minute keeps the board counted and hands out no id. */
  lemma {:induction false} ShutKeeps(rule: Rule, t: int, b: Board, d: StormBoard)
    requires ClosureRule(rule) && Counted(b)
    ensures Counted(Shut(rule, t, b, d).b) && Shut(rule, t, b, d).b.nextId == b.nextId
  {
    FlownKeeps(rule, t, b);
  }

  /** One minute t of the loop. */
  function StormTick(rule: Rule, t: int, arrives: bool, start: int, duration: int, d: StormBoard): (r: StormBoard)
    requires ClosureRule(rule) && Counted(d.b)
    ensures Counted(r.b) && r.b.nextId == if arrives then d.b.nextId + 1 else d.b.nextId
  {
    var b := Arrive(t, false, arrives, d.b);
    if Closed(t, start, duration) then ShutKeeps(rule, t, b, d); Shut(rule, t, b, d)
    else StormBoard(Open(t, b), d.affected, d.waited, d.maxQueue)
  }

  /** The first n minutes of the run on the arrival draws `arrivals`. */
  function StormRun(rule: Rule, arrivals: seq<bool>, start: int, duration: int, n: nat): (r: StormBoard)
    requires ClosureRule(rule) && n <= |arrivals|
    ensures Counted(r.b)
  {
    if n == 0 then StormBoard(Fresh(), 0, 0, 0)
    else StormTick(rule, n - 1, arrivals[n - 1], start, duration, StormRun(rule, arrivals, start, duration, n - 1))
  }

  /** Every queued aircraft of a counted board is approaching. */
  lemma {:induction false} QueuedApproaching(b: Board)
    requires Counted(b)
    ensures forall k :: 0 <= k < |b.w.queue| ==> b.w.fleet[b.w.queue[k]].status == Approaching
    ensures ApproachingIn(b.w.fleet, b.w.queue, |b.w.queue|) == |b.w.queue|
  {
    forall k | 0 <= k < |b.w.queue| ensures b.w.fleet[b.w.queue[k]].status == Approaching {
      assert b.w.queue[k] in Members(b.w.queue);
    }
    ApproachingAll(b.w.fleet, b.w.queue, |b.w.queue|);
  }

  /** A pass over the queue of a counted board leaves the rejoin list and
      the aircraft list alone, so the aircraft it takes out of the queue are
      exactly the growth of the counter it adds them to. */
  lemma {:induction false} FlownCount(rule: Rule, t: int, b: Board)
    requires Counted(b)
    ensures var r := Flown(rule, t, b);
      && r.w.side == b.w.side && r.allPlanes == b.allPlanes && |r.w.queue| <= |b.w.queue|
      && (Flying(rule) ==> r.diverted == b.diverted && r.landed == b.landed + (|b.w.queue| - |r.w.queue|))
      && (!Flying(rule) ==> r.landed == b.landed && r.diverted == b.diverted + (|b.w.queue| - |r.w.queue|))
  {
    FlownKeeps(rule, t, b);
    BoardConservation(b);
    BoardConservation(Flown(rule, t, b));
  }

  /** A closed minute of ejercicio6.py: every queued aircraft holds its
      distance, speed and track, waits one more minute and is marked
      affected; it leaves the queue, diverted at minute t, exactly when its
      wait now exceeds 60 minutes, or 30 within 10 nm; every queued
      aircraft counts once as affected and once as a minute of waiting;
      the rejoin list waits, and nothing else changes. */
  lemma {:induction false} WaitOutMinute(t: int, b: Board, d: StormBoard)
    requires Counted(b)
    ensures var r := Shut(WaitOut, t, b, d); var f, f' := b.w.fleet, r.b.w.fleet;
      && r.affected == d.affected + |b.w.queue| && r.waited == d.waited + |b.w.queue|
      && r.b.w.side == b.w.side && r.b.landed == b.landed
      && (forall x :: x in f && x !in b.w.queue ==> f'[x] == f[x])
      && forall x :: x in b.w.queue ==>
           && f'[x].dist == f[x].dist && f'[x].speed == f[x].speed && f'[x].positions == f[x].positions
           && f'[x].closureWait == f[x].closureWait + 1 && f'[x].stormAffected
           && (x in r.b.w.queue <==> !WaitedOut(f[x].closureWait + 1, f[x].dist))
           && (x !in r.b.w.queue ==> f'[x].status == Montevideo && f'[x].montevideoTime == Some(t))
  {
    QueuedApproaching(b);
    SweptEvery(WaitOut, t, b.w);
    FlownCount(WaitOut, t, b);
    var q' := Shut(WaitOut, t, b, d).b.w.queue;
    forall x | x in b.w.queue ensures b.w.fleet[x].status == Approaching && (x in q' <==> x !in Collected(WaitOut, t, b.w)) {
      assert x in Members(b.w.queue);
      WithoutMember(b.w.queue, Collected(WaitOut, t, b.w), x);
    }
  }

  /** A closed minute of Ejercicio6/ejercicio6.py: every queued aircraft
      flies one minute; it leaves the queue, diverted at minute t, exactly
      when it is then within 10 nm; the affected count grows exactly as the
      Montevideo count does, nothing is counted as waiting, and the rejoin
      list waits. */
  lemma {:induction false} CloseInMinute(t: int, b: Board, d: StormBoard)
    requires Counted(b)
    ensures var r := Shut(CloseIn, t, b, d); var f, f' := b.w.fleet, r.b.w.fleet;
      && r.waited == d.waited && r.affected - d.affected == r.b.diverted - b.diverted
      && r.b.landed == b.landed && r.b.w.side == b.w.side
      && (forall x :: x in f && x !in b.w.queue ==> f'[x] == f[x])
      && forall x :: x in b.w.queue ==>
           && f'[x].dist == Advanced(f[x], 1).dist && f'[x].positions == Advanced(f[x], 1).positions
           && (x in r.b.w.queue <==> Advanced(f[x], 1).dist > NearDist)
           && (x !in r.b.w.queue ==> f'[x].status == Montevideo && f'[x].montevideoTime == Some(t))
  {
    QueuedApproaching(b);
    SweptEvery(CloseIn, t, b.w);
    FlownCount(CloseIn, t, b);
    var out := Collected(CloseIn, t, b.w);
    var q' := Shut(CloseIn, t, b, d).b.w.queue;
    forall x | x in b.w.queue ensures b.w.fleet[x].status == Approaching && (x in q' <==> x !in out) {
      assert x in Members(b.w.queue);
      WithoutMember(b.w.queue, out, x);
    }
  }

  /** The stamped position pass of an open minute: each queued aircraft
      either flew one minute and is still queued and approaching, or has
      landed with minute t as its landing time and left the queue; each
      landing is counted once in landed_count. */
  lemma {:induction false} StampedLanding(t: int, b: Board)
    requires Counted(b)
    ensures var r := Flown(Stamped, t, b); var f, f' := b.w.fleet, r.w.fleet;
      && r.landed == b.landed + (|b.w.queue| - |r.w.queue|) && r.diverted == b.diverted
      && (forall x :: x in f && x !in b.w.queue ==> f'[x] == f[x])
      && forall x :: x in b.w.queue ==>
           || (x in r.w.queue && f'[x] == Fly(Stamped, t, f[x]) && f'[x].status == Approaching)
           || (x !in r.w.queue && f'[x].status == Landed && f'[x].landedTime == Some(t))
  {
    QueuedApproaching(b);
    SweptEvery(Stamped, t, b.w);
    FlownCount(Stamped, t, b);
    var out := Collected(Stamped, t, b.w);
    var q' := Flown(Stamped, t, b).w.queue;
    forall x | x in b.w.queue ensures b.w.fleet[x].status == Approaching && (x in q' <==> x !in out) {
      assert x in Members(b.w.queue);
      WithoutMember(b.w.queue, out, x);
    }
  }

  /** The open minute as the loop writes it. */
  method RunOpen(t: int, b: Board) returns (b': Board)
    requires Counted(b)
    ensures b' == Open(t, b)
  {
    EjectKeeps(t, b);
    var w := SeparateAndRemove(true, t, Rejoin, b.w);
    var b1 := b.(w := w);
    RejoinKeeps(t, false, b1);
    var b2 := RunRejoin(t, false, b1);
    FlownKeeps(Stamped, t, b2);
    b' := RunFly(Stamped, t, b2);
  }

  /** The closed minute as the loop writes it: `max_cola_durante_cierre =
      max(max_cola_durante_cierre, len(queue))`, then the closure pass, its
      removals and its counters. */
  method RunShut(rule: Rule, t: int, b: Board, d: StormBoard) returns (d': StormBoard)
    requires ClosureRule(rule) && Counted(b)
    ensures d' == Shut(rule, t, b, d)
  {
    var maxQueue := MaxNat(d.maxQueue, |b.w.queue|);
    var w, collected, touched := SweepAndRemove(rule, t, b.w);
    var b' := b.(w := w, diverted := b.diverted + |collected|);
    var affected, waited := d.affected, d.waited;
    if rule == WaitOut {
      affected, waited := affected + touched, waited + touched;
    } else {
      affected := affected + |collected|;
    }
    d' := StormBoard(b', affected, waited, maxQueue);
    ShutFields(rule, t, b, d, d');
  }

  /** The fields RunShut writes are those of Shut. */
  lemma {:induction false} ShutFields(rule: Rule, t: int, b: Board, d: StormBoard, d': StormBoard)
    requires ClosureRule(rule) && Sound(b.w)
    requires d'.b == b.(w := Swept(rule, t, b.w), diverted := b.diverted + |Collected(rule, t, b.w)|)
    requires d'.maxQueue == MaxNat(d.maxQueue, |b.w.queue|)
    requires var touched := ApproachingIn(b.w.fleet, b.w.queue, |b.w.queue|);
      && d'.affected == d.affected + (if rule == WaitOut then touched else |Collected(rule, t, b.w)|)
      && d'.waited == d.waited + (if rule == WaitOut then touched else 0)
    ensures d' == Shut(rule, t, b, d)
  {
    assert d'.b == Flown(rule, t, b);
  }

  /** One iteration of `for t in range(total_minutes)`. */
  method StormMinute(rule: Rule, t: int, arrives: bool, start: int, duration: int, d: StormBoard)
    returns (d': StormBoard)
    requires ClosureRule(rule) && Counted(d.b)
    ensures d' == StormTick(rule, t, arrives, start, duration, d)
  {
    var b := RunArrive(t, false, arrives, d.b);
    if start <= t < start + duration {
      d' := RunShut(rule, t, b, d);
    } else {
      var b' := RunOpen(t, b);
      d' := d.(b := b');
    }
  }

  /** The minute loop shared by both versions. */
  method StormLoop(rule: Rule, arrivals: seq<bool>, start: int, duration: int) returns (d: StormBoard)
    requires ClosureRule(rule)
    ensures d == StormRun(rule, arrivals, start, duration, |arrivals|)
  {
    d := StormBoard(Fresh(), 0, 0, 0);
    var t := 0;
    while t < |arrivals|
      invariant t <= |arrivals|
      invariant d == StormRun(rule, arrivals, start, duration, t)
    {
      d := StormMinute(rule, t, arrivals[t], start, duration, d);
      t := t + 1;
    }
  }

  /** simulate_storm_closure of ejercicio6.py with the arrival draws given
      (`arrivals[t]` is `random.random() < lambda_prob` at minute t, and
      total_minutes is their number). It returns the aircraft (as the fleet
      and the id list), landed_count, montevideo_count, planes_afectados,
      tiempo_espera_total and max_cola_durante_cierre. */
  method SimulateStormClosure(arrivals: seq<bool>, stormStart: int, stormDuration: int)
    returns (fleet: Fleet, planes: seq<int>, landed: nat, montevideo: nat,
             affected: nat, waited: nat, maxQueue: nat)
    ensures var r := StormRun(WaitOut, arrivals, stormStart, stormDuration, |arrivals|);
      && fleet == r.b.w.fleet && planes == r.b.allPlanes && landed == r.b.landed
      && montevideo == r.b.diverted && affected == r.affected && waited == r.waited
      && maxQueue == r.maxQueue
  {
    var d := StormLoop(WaitOut, arrivals, stormStart, stormDuration);
    fleet, planes, landed, montevideo := d.b.w.fleet, d.b.allPlanes, d.b.landed, d.b.diverted;
    affected, waited, maxQueue := d.affected, d.waited, d.maxQueue;
  }

  /** The closure window (storm_start, storm_end) of Ejercicio6/ejercicio6.py:
      the given start, or `random.randint(0, total_minutes - storm_duration)`
      with the draw given, which raises ValueError on an empty range. */
  function StormWindow(start: Option<int>, draw: int, total: int, duration: int): (r: Option<(int, int)>)
    ensures r.Some? ==> r.value.1 == r.value.0 + duration
    ensures start.Some? ==> r.Some? && r.value.0 == start.value
    ensures start.None? ==> (r.Some? <==> duration <= total)
  {
    match start
    case Some(s) => Some((s, s + duration))
    case None => if total - duration < 0 then None else Some((draw, draw + duration))
  }

  /** A drawn closure of at most the day's length lies within the day: every
      closed minute is one of the simulated minutes 0..total-1. */
  lemma {:induction false} DrawnWindowInDay(draw: int, total: int, duration: int, t: int)
    requires 0 <= duration <= total && 0 <= draw <= total - duration
    ensures var r := StormWindow(None, draw, total, duration);
      && r.Some? && 0 <= r.value.0 && r.value.1 <= total
      && (Closed(t, r.value.0, duration) ==> 0 <= t < total)
  {
  }

  /** What Ejercicio6/ejercicio6.py returns: the aircraft, landed_count,
      montevideo_count, planes_afectados, tiempo_espera_total,
      max_cola_durante_cierre, storm_start and storm_end. */
  datatype StormReport = StormReport(fleet: Fleet, planes: seq<int>, landed: nat, montevideo: nat,
                                     affected: nat, waited: nat, maxQueue: nat,
                                     stormStart: int, stormEnd: int)

  /** The 8-tuple of a finished run closed over (start, end). */
  function ReportOf(d: StormBoard, start: int, end: int): (r: StormReport)
    ensures r.fleet == d.b.w.fleet && r.planes == d.b.allPlanes
    ensures r.landed == d.b.landed && r.montevideo == d.b.diverted
    ensures r.affected == d.affected && r.waited == d.waited && r.maxQueue == d.maxQueue
    ensures r.stormStart == start && r.stormEnd == end
  {
    StormReport(d.b.w.fleet, d.b.allPlanes, d.b.landed, d.b.diverted,
                d.affected, d.waited, d.maxQueue, start, end)
  }

  /** simulate_storm_closure of Ejercicio6/ejercicio6.py with the arrival
      draws and the start draw given. None stands for the ValueError of an
      empty randint range. */
  method SimulateDrawnStorm(arrivals: seq<bool>, stormStart: Option<int>, draw: int, stormDuration: int)
    returns (report: Option<StormReport>)
    requires stormStart.None? && stormDuration <= |arrivals| ==> 0 <= draw <= |arrivals| - stormDuration
    ensures report.None? <==> stormStart.None? && stormDuration > |arrivals|
    ensures report.Some? ==>
      && StormWindow(stormStart, draw, |arrivals|, stormDuration) == Some((report.value.stormStart, report.value.stormEnd))
      && report.value == ReportOf(StormRun(CloseIn, arrivals, report.value.stormStart, stormDuration, |arrivals|),
                                  report.value.stormStart, report.value.stormEnd)
  {
    var window := StormWindow(stormStart, draw, |arrivals|, stormDuration);
    if window.None? {
      return None;
    }
    var (start, end) := window.value;
    var d := StormLoop(CloseIn, arrivals, start, stormDuration);
    report := Some(ReportOf(d, start, end));
  }

  /** How one minute moves the three storm counters, for a minute that is
      closed or not and records the queue length q when closed. */
  predicate CounterStep(rule: Rule, closed: bool, d: StormBoard, r: StormBoard, q: nat)
  {
    && (!closed ==>
          r.affected == d.affected && r.waited == d.waited && r.maxQueue == d.maxQueue
          && r.b.diverted >= d.b.diverted)
    && (closed ==> r.maxQueue == MaxNat(d.maxQueue, q))
    && (closed && rule == WaitOut ==> r.affected - d.affected == r.waited - d.waited)
    && (closed && rule == CloseIn ==>
          r.waited == d.waited && r.affected - d.affected == r.b.diverted - d.b.diverted)
  }

  /** How one minute moves the three storm counters: an open minute leaves
      them alone and never decreases montevideo_count; a closed minute
      records its queue length in the maximum and adds the same amount to
      planes_afectados and tiempo_espera_total (ejercicio6.py) or to
      planes_afectados and montevideo_count (Ejercicio6/ejercicio6.py). */
  lemma {:induction false} TickCounters(rule: Rule, t: int, arrives: bool, start: int, duration: int, d: StormBoard)
    requires ClosureRule(rule) && Counted(d.b)
    ensures CounterStep(rule, Closed(t, start, duration), d, StormTick(rule, t, arrives, start, duration, d),
                        |Arrive(t, false, arrives, d.b).w.queue|)
  {
    var b := Arrive(t, false, arrives, d.b);
    if Closed(t, start, duration) {
      if rule == WaitOut {
        WaitOutMinute(t, b, d);
      } else {
        CloseInMinute(t, b, d);
      }
    }
  }

  /** The run's boards after 0, 1, ..., n minutes. */
  ghost function Trace(rule: Rule, arrivals: seq<bool>, start: int, duration: int, n: nat): (ds: seq<StormBoard>)
    requires ClosureRule(rule) && n <= |arrivals|
    ensures |ds| == n + 1 && forall k :: 0 <= k <= n ==> ds[k] == StormRun(rule, arrivals, start, duration, k)
  {
    seq(n + 1, k requires 0 <= k <= n => StormRun(rule, arrivals, start, duration, k))
  }

  /** Whether each of the minutes 0..n-1 is closed. */
  ghost function Closures(start: int, duration: int, n: nat): (cs: seq<bool>)
    ensures |cs| == n && forall k :: 0 <= k < n ==> cs[k] == Closed(k, start, duration)
  {
    seq(n, k => Closed(k, start, duration))
  }

  /** The queue length a closed minute t records: after that minute's
      arrival. */
  ghost function ClosedQueue(rule: Rule, arrivals: seq<bool>, start: int, duration: int, t: nat): nat
    requires ClosureRule(rule) && t < |arrivals|
  {
    |Arrive(t, false, arrivals[t], StormRun(rule, arrivals, start, duration, t).b).w.queue|
  }

  /** The queue lengths of the minutes 0..n-1. */
  ghost function ClosedQueues(rule: Rule, arrivals: seq<bool>, start: int, duration: int, n: nat): (qs: seq<nat>)
    requires ClosureRule(rule) && n <= |arrivals|
    ensures |qs| == n && forall k :: 0 <= k < n ==> qs[k] == ClosedQueue(rule, arrivals, start, duration, k)
  {
    seq(n, k requires 0 <= k < n => ClosedQueue(rule, arrivals, start, duration, k))
  }

  /** A trace of boards from zero counters, each minute moving the
      counters as CounterStep says. */
  ghost predicate Steps(rule: Rule, ds: seq<StormBoard>, cs: seq<bool>, qs: seq<nat>)
  {
    && |ds| == |cs| + 1 && |qs| == |cs|
    && ds[0].affected == 0 && ds[0].waited == 0 && ds[0].maxQueue == 0
    && forall k :: 0 <= k < |cs| ==> CounterStep(rule, cs[k], ds[k], ds[k + 1], qs[k])
  }

  /** The run is such a trace. */
  lemma {:induction false} RunSteps(rule: Rule, arrivals: seq<bool>, start: int, duration: int, n: nat)
    requires ClosureRule(rule) && n <= |arrivals|
    ensures Steps(rule, Trace(rule, arrivals, start, duration, n), Closures(start, duration, n),
                  ClosedQueues(rule, arrivals, start, duration, n))
  {
    var ds := Trace(rule, arrivals, start, duration, n);
    var cs := Closures(start, duration, n);
    var qs := ClosedQueues(rule, arrivals, start, duration, n);
    forall k | 0 <= k < n ensures CounterStep(rule, cs[k], ds[k], ds[k + 1], qs[k]) {
      TickCounters(rule, k, arrivals[k], start, duration, StormRun(rule, arrivals, start, duration, k));
    }
  }

  lemma {:induction false} StepsPrefix(rule: Rule, ds: seq<StormBoard>, cs: seq<bool>, qs: seq<nat>)
    requires Steps(rule, ds, cs, qs) && |cs| > 0
    ensures Steps(rule, ds[..|ds| - 1], cs[..|cs| - 1], qs[..|qs| - 1])
  {
  }

  /** The counter relations along any such trace. */
  lemma {:induction false} StepsCounters(rule: Rule, ds: seq<StormBoard>, cs: seq<bool>, qs: seq<nat>)
    requires ClosureRule(rule) && Steps(rule, ds, cs, qs)
    ensures var r, n := ds[|cs|], |cs|;
      && (rule == WaitOut ==> r.affected == r.waited)
      && (rule == CloseIn ==> r.waited == 0 && r.affected <= r.b.diverted - ds[0].b.diverted)
      && ((forall k :: 0 <= k < n ==> !cs[k]) ==> r.affected == 0 && r.waited == 0 && r.maxQueue == 0)
      && (forall k :: 0 <= k < n && cs[k] ==> qs[k] <= r.maxQueue)
      && (r.maxQueue == 0 || exists k :: 0 <= k < n && cs[k] && qs[k] == r.maxQueue)
  {
    var n := |cs|;
    if n > 0 {
      StepsPrefix(rule, ds, cs, qs);
      StepsCounters(rule, ds[..n], cs[..n - 1], qs[..n - 1]);
      assert CounterStep(rule, cs[n - 1], ds[n - 1], ds[n], qs[n - 1]);
      var m := ds[n].maxQueue;
      if m != 0 && !(cs[n - 1] && qs[n - 1] == m) {
        var k :| 0 <= k < n - 1 && cs[..n - 1][k] && qs[..n - 1][k] == m;
        assert cs[k] && qs[k] == m;
      }
    }
  }

  /** planes_afectados against tiempo_espera_total over the first n
      minutes: in ejercicio6.py each affected count is one minute of
      waiting, so the two are always equal; in Ejercicio6/ejercicio6.py
      nothing counts as waiting and every affected aircraft is one of the
      aircraft counted in montevideo_count. */
  lemma {:induction false} StormCounters(rule: Rule, arrivals: seq<bool>, start: int, duration: int, n: nat)
    requires ClosureRule(rule) && n <= |arrivals|
    ensures var r := StormRun(rule, arrivals, start, duration, n);
      && (rule == WaitOut ==> r.affected == r.waited)
      && (rule == CloseIn ==> r.waited == 0 && r.affected <= r.b.diverted)
  {
    RunSteps(rule, arrivals, start, duration, n);
    StepsCounters(rule, Trace(rule, arrivals, start, duration, n), Closures(start, duration, n),
                  ClosedQueues(rule, arrivals, start, duration, n));
  }

  /** A day whose first n minutes miss the closure leaves the three storm
      counters at zero. */
  lemma {:induction false} StormQuietDay(rule: Rule, arrivals: seq<bool>, start: int, duration: int, n: nat)
    requires ClosureRule(rule) && n <= |arrivals|
    requires forall t :: 0 <= t < n ==> !Closed(t, start, duration)
    ensures var r := StormRun(rule, arrivals, start, duration, n);
      r.affected == 0 && r.waited == 0 && r.maxQueue == 0
  {
    RunSteps(rule, arrivals, start, duration, n);
    var cs := Closures(start, duration, n);
    assert forall k :: 0 <= k < n ==> !cs[k];
    StepsCounters(rule, Trace(rule, arrivals, start, duration, n), cs,
                  ClosedQueues(rule, arrivals, start, duration, n));
  }

  /** max_cola_durante_cierre after n minutes is the largest queue length
      some closed minute recorded, or 0 when no minute was closed yet. */
  lemma {:induction false} StormMaxQueue(rule: Rule, arrivals: seq<bool>, start: int, duration: int, n: nat)
    requires ClosureRule(rule) && n <= |arrivals|
    ensures var m := StormRun(rule, arrivals, start, duration, n).maxQueue;
      && (forall t :: 0 <= t < n && Closed(t, start, duration) ==> ClosedQueue(rule, arrivals, start, duration, t) <= m)
      && (m == 0 || exists t :: 0 <= t < n && Closed(t, start, duration) && ClosedQueue(rule, arrivals, start, duration, t) == m)
  {
    RunSteps(rule, arrivals, start, duration, n);
    var cs := Closures(start, duration, n);
    var qs := ClosedQueues(rule, arrivals, start, duration, n);
    StepsCounters(rule, Trace(rule, arrivals, start, duration, n), cs, qs);
    var m := StormRun(rule, arrivals, start, duration, n).maxQueue;
    if m != 0 {
      var k :| 0 <= k < n && cs[k] && qs[k] == m;
      assert Closed(k, start, duration) && ClosedQueue(rule, arrivals, start, duration, k) == m;
    }
  }
}
