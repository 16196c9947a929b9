/** VisualSimulation of Ejercicio1/simulador.py: the interactive simulator
    runs the full rejoin loop one minute at a time. Each new minute an
    aircraft may arrive (with the 4-minute check), the strict separation
    pass ejects aircraft to `rejoining`, the rejoin pass flies them outward
    and diverts or reinserts them, and one position pass lands and removes
    aircraft. The drawing code is not part of this model. */
module Visual {
  import opened Queues
  import opened Aircraft
  import opened Traffic
  import opened Ejection
  import opened Rejoin
  import opened Sweep
  import opened Intake

  /** The simulation part of the simulator's state: the aircraft, the
      queue and the rejoin list, `all_planes`, the three counters and the
      next id. */
  datatype Board = Board(w: Traffic, allPlanes: seq<int>, landed: nat, diverted: nat, spawned: nat, nextId: int)

  /** What every minute keeps: the aircraft are exactly 1..next_id-1, in
      order of creation in all_planes; total_spawned counts them; the queue
      holds the approaching aircraft, `rejoining` those in rejoin, and the
      two counters are the numbers of landed and diverted aircraft. */
  predicate Counted(b: Board)
  {
    && b.nextId >= 1 && b.spawned == b.nextId - 1
    && b.allPlanes == Ids(b.nextId - 1)
    && b.w.fleet.Keys == Members(b.allPlanes)
    && Tallied(b.w, Rejoin, b.landed, b.diverted)
  }

  /** The state start_simulation resets to (and the one __init__ sets up). */
  function Fresh(): (b: Board)
    ensures Counted(b)
  {
    assert Ids(0) == [];
    Board(Traffic(map[], [], []), [], 0, 0, 0, 1)
  }

  /** Python's int() on a float: truncation toward zero. */
  function Trunc(x: real): (r: int)
    ensures x >= 0.0 ==> r as real <= x < r as real + 1.0
    ensures x < 0.0 ==> r as real - 1.0 < x <= r as real
  {
    if x >= 0.0 then x.Floor else -((-x).Floor)
  }

  /** The arrival of minute t: a new aircraft under next_id, checked against
      the queue tail when `check` holds, appended to all_planes and the
      queue. */
  function Arrive(t: int, check: bool, arrives: bool, b: Board): (r: Board)
    requires Counted(b)
    ensures Counted(r) && r.w.side == b.w.side
    ensures r.nextId == (if arrives then b.nextId + 1 else b.nextId)
    ensures r.spawned == (if arrives then b.spawned + 1 else b.spawned)
    ensures r.landed == b.landed && r.diverted == b.diverted
    ensures arrives ==> r.w.queue == b.w.queue + [b.nextId] && r.allPlanes == b.allPlanes + [b.nextId]
  {
    if arrives then
      AdmitNext(b.w, b.nextId, Arrival(b.nextId, t), check, Rejoin, b.landed, b.diverted);
      IdsNext(b.nextId - 1);
      Board(Admitted(b.w, b.nextId, Arrival(b.nextId, t), check), b.allPlanes + [b.nextId],
            b.landed, b.diverted, b.spawned + 1, b.nextId + 1)
    else b
  }

  /** The separation pass and its removal keep the board counted. */
  lemma {:induction false} EjectKeeps(t: int, b: Board)
    requires Counted(b)
    ensures Counted(b.(w := Separated(true, t, Rejoin, b.w)))
  {
    SeparatedTally(true, t, Rejoin, b.w, b.landed, b.diverted);
    SeparatedGrows(true, t, Rejoin, b.w);
  }

  /** The rejoin pass over `rejoining[:]`, recording a position sample
      for each outward minute when `sample` holds. */
  function Rejoined(t: int, sample: bool, b: Board): Board
  {
    var r := RejoinFrom(t, sample, b.w, b.w.side, |b.w.side|);
    b.(w := r.0, diverted := b.diverted + r.1)
  }

  /** The rejoin pass keeps the board counted, `montevideo_count` growing by
      the number of diverted aircraft. */
  lemma {:induction false} RejoinKeeps(t: int, sample: bool, b: Board)
    requires Counted(b)
    ensures Counted(Rejoined(t, sample, b))
  {
    RejoinFromSound(t, sample, b.w, b.w.side, |b.w.side|);
    RejoinFromTally(t, sample, b.w, b.w.side, |b.w.side|, b.landed, b.diverted);
  }

  /** A pass over the queue with its removal: a position pass adds the
      aircraft it collects to landed_count, a closure pass adds them to
      montevideo_count. */
  function Flown(rule: Rule, t: int, b: Board): Board
    requires Sound(b.w)
  {
    var n := |Collected(rule, t, b.w)|;
    b.(w := Swept(rule, t, b.w),
       landed := if Flying(rule) then b.landed + n else b.landed,
       diverted := if Flying(rule) then b.diverted else b.diverted + n)
  }

  /** The pass keeps the board counted. */
  lemma {:induction false} FlownKeeps(rule: Rule, t: int, b: Board)
    requires Counted(b)
    ensures Counted(Flown(rule, t, b))
  {
    SweptTally(rule, t, b.w, Rejoin, b.landed, b.diverted);
    SweptEvery(rule, t, b.w);
  }

  /** The tick logic of update_simulation for a new minute t below
      total_minutes. Nothing is lost: every created aircraft stays known,
      and the counters only grow. */
  function Tick(t: int, arrives: bool, b: Board): (r: Board)
    requires Counted(b)
    ensures Counted(r)
    ensures r.nextId == (if arrives then b.nextId + 1 else b.nextId)
    ensures r.landed >= b.landed && r.diverted >= b.diverted
  {
    var b1 := Arrive(t, true, arrives, b);
    EjectKeeps(t, b1);
    var b2 := b1.(w := Separated(true, t, Rejoin, b1.w));
    RejoinKeeps(t, true, b2);
    var b3 := Rejoined(t, true, b2);
    FlownKeeps(Plain, t, b3);
    Flown(Plain, t, b3)
  }

  /** total_spawned == len(queue) + len(rejoining) + landed_count +
      montevideo_count: every aircraft created is in exactly one of the two
      lists or counted once as landed or diverted. */
  lemma {:induction false} BoardConservation(b: Board)
    requires Counted(b)
    ensures b.spawned == |b.w.queue| + |b.w.side| + b.landed + b.diverted
  {
    Conservation(b.w, Rejoin, b.landed, b.diverted);
    IdsNext(b.nextId - 1);
    DistinctCard(Ids(b.nextId - 1));
  }

  /** `[p for p in queue if p.status == 'approaching']`. */
  function ApproachingOnly(fleet: Fleet, q: seq<int>): (r: seq<int>)
    requires Listed(fleet, q)
    ensures |r| <= |q|
  {
    if q == [] then []
    else
      var rest := ApproachingOnly(fleet, q[..|q| - 1]);
      if fleet[q[|q| - 1]].status == Approaching then rest + [q[|q| - 1]] else rest
  }

  /** The filter keeps exactly the approaching aircraft of the list. */
  lemma {:induction false} ApproachingOnlyMember(fleet: Fleet, q: seq<int>, x: int)
    requires Listed(fleet, q)
    ensures x in ApproachingOnly(fleet, q) <==> x in q && fleet[x].status == Approaching
  {
    if q != [] {
      ApproachingOnlyMember(fleet, q[..|q| - 1], x);
      assert q == q[..|q| - 1] + [q[|q| - 1]];
    }
  }

  /** When every listed aircraft is approaching the filter drops none. */
  lemma {:induction false} ApproachingOnlyAll(fleet: Fleet, q: seq<int>)
    requires Listed(fleet, q) && forall k :: 0 <= k < |q| ==> fleet[q[k]].status == Approaching
    ensures ApproachingOnly(fleet, q) == q
  {
    if q != [] {
      ApproachingOnlyAll(fleet, q[..|q| - 1]);
      assert q == q[..|q| - 1] + [q[|q| - 1]];
    }
  }

  /** Between minutes the queue holds only approaching aircraft, so the
      visible list is the queue followed by the rejoin list. */
  lemma {:induction false} VisibleIsQueueAndRejoin(b: Board)
    requires Counted(b)
    ensures ApproachingOnly(b.w.fleet, b.w.queue) + b.w.side == b.w.queue + b.w.side
  {
    forall k | 0 <= k < |b.w.queue| ensures b.w.fleet[b.w.queue[k]].status == Approaching {
      assert b.w.queue[k] in Members(b.w.queue);
    }
    ApproachingOnlyAll(b.w.fleet, b.w.queue);
  }

  /** The arrival of minute t, as the simulator writes it. */
  method RunArrive(t: int, check: bool, arrives: bool, b: Board) returns (b': Board)
    requires Counted(b)
    ensures b' == Arrive(t, check, arrives, b)
  {
    b' := b;
    if arrives {
      var w := Admit(b.w, b.nextId, Arrival(b.nextId, t), check);
      b' := Board(w, b.allPlanes + [b.nextId], b.landed, b.diverted, b.spawned + 1, b.nextId + 1);
    }
  }

  /** The rejoin pass, adding each diversion to montevideo_count. */
  method RunRejoin(t: int, sample: bool, b: Board) returns (b': Board)
    requires Counted(b)
    ensures b' == Rejoined(t, sample, b)
  {
    var w, diverted := RejoinPass(t, sample, b.w);
    b' := b.(w := w, diverted := b.diverted + diverted);
  }

  /** The position pass, adding each landing to landed_count. */
  method RunFly(rule: Rule, t: int, b: Board) returns (b': Board)
    requires Counted(b)
    ensures b' == Flown(rule, t, b)
  {
    var w, collected, touched := SweepAndRemove(rule, t, b.w);
    if Flying(rule) {
      b' := b.(w := w, landed := b.landed + |collected|);
    } else {
      b' := b.(w := w, diverted := b.diverted + |collected|);
    }
  }

  /** The tick logic, run by the passes of the rejoin loop. */
  method RunTick(t: int, arrives: bool, b: Board) returns (b': Board)
    requires Counted(b)
    ensures b' == Tick(t, arrives, b)
  {
    var b1 := RunArrive(t, true, arrives, b);
    EjectKeeps(t, b1);
    var w := SeparateAndRemove(true, t, Rejoin, b1.w);
    var b2 := b1.(w := w);
    RejoinKeeps(t, true, b2);
    var b3 := RunRejoin(t, true, b2);
    FlownKeeps(Plain, t, b3);
    b' := RunFly(Plain, t, b3);
  }

  /** What the clock of update_simulation decides on a frame that moves it
      on by `step`: nothing while stopped or paused; within the same
      integer minute only the clock moves; a new minute at or past
      total_minutes ends the run; any other new minute runs the tick logic. */
  datatype Phase = Idle | SameMinute | Finished | NewMinute(t: int)

  function Clock(time: real, step: real, running: bool, paused: bool, totalMinutes: int): (p: Phase)
    ensures p == Idle <==> !running || paused
    ensures p.NewMinute? ==> p.t == Trunc(time + step) && p.t != Trunc(time) && p.t < totalMinutes
    ensures p == Finished ==> Trunc(time + step) >= totalMinutes
    ensures p == SameMinute ==> Trunc(time + step) == Trunc(time)
  {
    if !running || paused then Idle
    else
      var t := Trunc(time + step);
      if t == Trunc(time) then SameMinute
      else if t >= totalMinutes then Finished
      else NewMinute(t)
  }

  /** The clock after the frame. */
  function ClockTime(p: Phase, time: real, step: real): real
  {
    if p == Idle then time else time + step
  }

  /** The running flag after the frame. */
  function StillRunning(p: Phase, running: bool): bool
  {
    if p == Idle then running else p != Finished
  }

  /** On a clock that only moves forward, the minutes the tick logic runs
      for strictly increase and stay below total_minutes, and a run that
      has stopped stays stopped. */
  lemma {:induction false} ClockForward(time: real, step: real, running: bool, paused: bool, totalMinutes: int)
    requires time >= 0.0 && step >= 0.0
    ensures var p := Clock(time, step, running, paused, totalMinutes);
      && (p.NewMinute? ==> 0 <= Trunc(time) < p.t < totalMinutes)
      && (!StillRunning(p, running) ==> Clock(ClockTime(p, time, step), step, false, paused, totalMinutes) == Idle)
  {
    var p := Clock(time, step, running, paused, totalMinutes);
    if p.NewMinute? {
      assert Trunc(time) as real <= time <= time + step < p.t as real + 1.0;
    }
  }

  /** The clock part of update_simulation, with its early returns. */
  method RunClock(time: real, step: real, running: bool, paused: bool, totalMinutes: int)
    returns (p: Phase, time': real, running': bool)
    ensures p == Clock(time, step, running, paused, totalMinutes)
    ensures time' == ClockTime(p, time, step) && running' == StillRunning(p, running)
  {
    p, time', running' := Idle, time, running;
    if !running || paused {
      return;
    }
    var oldTime := Trunc(time');
    time' := time' + step;
    var t := Trunc(time');
    if t == oldTime {
      p := SameMinute;
      return;
    }
    if t >= totalMinutes {
      p, running' := Finished, false;
      return;
    }
    p := NewMinute(t);
  }

  /** What update_simulation does to the simulation state `b`, the clock
      `time` and the running flag: the tick logic runs for the new minute
      the clock reaches, and only then. */
  function Updated(b: Board, time: real, step: real, running: bool, paused: bool,
                   totalMinutes: int, arrives: bool): (r: (Board, real, bool))
    requires Counted(b)
    ensures Counted(r.0)
  {
    var p := Clock(time, step, running, paused, totalMinutes);
    (if p.NewMinute? then Tick(p.t, arrives, b) else b, ClockTime(p, time, step), StillRunning(p, running))
  }

  /** update_simulation on the values of the fields. */
  method RunUpdate(b: Board, time: real, step: real, running: bool, paused: bool,
                   totalMinutes: int, arrives: bool) returns (b': Board, time': real, running': bool)
    requires Counted(b)
    ensures (b', time', running') == Updated(b, time, step, running, paused, totalMinutes, arrives)
  {
    var p;
    p, time', running' := RunClock(time, step, running, paused, totalMinutes);
    b' := b;
    if p.NewMinute? {
      b' := RunTick(p.t, arrives, b);
    }
  }

  class VisualSimulation {
    var fleet: Fleet
    var queue: seq<int>
    var rejoining: seq<int>
    var allPlanes: seq<int>
    /** The aircraft on screen. */
    var planes: seq<int>
    var currentTime: real
    var timeSpeed: real
    var running: bool
    var paused: bool
    const totalMinutes: int
    var nextId: int
    var landedCount: nat
    var montevideoCount: nat
    var totalSpawned: nat

    /** The simulation state of the object. */
    function BoardOf(): Board
      reads this
    {
      Board(Traffic(fleet, queue, rejoining), allPlanes, landedCount, montevideoCount, totalSpawned, nextId)
    }

    /** The class invariant: the simulation state is counted, and the
        visible list is the queue followed by the rejoin list. */
    predicate Valid()
      reads this
    {
      Counted(BoardOf()) && planes == queue + rejoining
    }

    /** __init__: nothing created, time 0 at speed 0.2, 1080 minutes (06:00
        to 24:00), not running. */
    constructor ()
      ensures Valid() && BoardOf() == Fresh() && planes == [] && currentTime == 0.0
      ensures timeSpeed == 0.2 && totalMinutes == 1080 && !running && !paused
    {
      fleet, queue, rejoining, allPlanes, planes := map[], [], [], [], [];
      currentTime, timeSpeed := 0.0, 0.2;
      running, paused := false, false;
      totalMinutes := 1080;
      nextId, landedCount, montevideoCount, totalSpawned := 1, 0, 0, 0;
    }

    /** start_simulation: everything reset, running and not paused; the
        time speed is kept. */
    method StartSimulation()
      modifies this`fleet, this`queue, this`rejoining, this`allPlanes, this`planes,
               this`landedCount, this`montevideoCount, this`totalSpawned, this`nextId,
               this`currentTime, this`running, this`paused
      ensures Valid() && BoardOf() == Fresh() && planes == [] && currentTime == 0.0
      ensures running && !paused
    {
      currentTime, running, paused := 0.0, true, false;
      Show(Fresh());
    }

    /** update_simulation(dt), with `arrives` the outcome of the arrival
        draw `random.random() < lambda_prob` of this minute. The pause flag
        and the time speed are left alone. */
    method UpdateSimulation(dt: real, arrives: bool)
      requires Valid()
      modifies this`fleet, this`queue, this`rejoining, this`allPlanes, this`planes,
               this`landedCount, this`montevideoCount, this`totalSpawned, this`nextId,
               this`currentTime, this`running
      ensures Valid()
      ensures (BoardOf(), currentTime, running) ==
        Updated(old(BoardOf()), old(currentTime), dt * old(timeSpeed), old(running), old(paused), totalMinutes, arrives)
    {
      var b, time, run := RunUpdate(BoardOf(), currentTime, dt * timeSpeed, running, paused, totalMinutes, arrives);
      currentTime, running := time, run;
      Show(b);
    }

    /** The new state of the simulation, and `self.planes = [p for p in
        self.queue if p.status == 'approaching'] + self.rejoining`. */
    method Show(b: Board)
      requires Counted(b)
      modifies this`fleet, this`queue, this`rejoining, this`allPlanes, this`planes,
               this`landedCount, this`montevideoCount, this`totalSpawned, this`nextId
      ensures Valid() && BoardOf() == b
    {
      VisibleIsQueueAndRejoin(b);
      var visible := ApproachingOnly(b.w.fleet, b.w.queue) + b.w.side;
      fleet, queue, rejoining, allPlanes := b.w.fleet, b.w.queue, b.w.side, b.allPlanes;
      landedCount, montevideoCount, totalSpawned, nextId := b.landed, b.diverted, b.spawned, b.nextId;
      planes := visible;
    }
  }
}
