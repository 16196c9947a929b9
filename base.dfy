/** simulate_planes of main.py: the base control loop. Each minute an
    aircraft may arrive (slowed by the 4-minute check), the lenient
    separation pass runs once for every aircraft of a snapshot of the
    queue that is still approaching when its turn comes, and two position
    passes fly the queue. Ejected aircraft go to `rejoining`, which this
    loop never processes. */
module Base {
  import opened Kinematics
  import opened Queues
  import opened Aircraft
  import opened Separation
  import opened Traffic
  import opened Ejection
  import opened Sweep
  import opened Intake

  /** The outer loop's test for the snapshot aircraft `id`. */
  predicate Due(w: Traffic, id: int)
  {
    Sound(w) && id in w.fleet && w.fleet[id].status == Approaching
  }

  /** `for i, plane in enumerate(queue[:]): if plane.status ==
      'approaching': <the whole pass and its removal>`, over the first n
      aircraft of the snapshot. `Due` also asks for sound traffic, which
      RepassedSound shows always holds. */
  function Repassed(t: int, w: Traffic, snap: seq<int>, n: nat): Traffic
    requires n <= |snap|
  {
    if n == 0 then w
    else
      var v := Repassed(t, w, snap, n - 1);
      if Due(v, snap[n - 1]) then Separated(false, t, Rejoin, v) else v
  }

  lemma {:induction false} RepassedSound(t: int, w: Traffic, snap: seq<int>, n: nat)
    requires Sound(w) && n <= |snap|
    ensures var v := Repassed(t, w, snap, n);
      Sound(v) && v.fleet.Keys == w.fleet.Keys && w.side <= v.side
  {
    if n > 0 {
      RepassedSound(t, w, snap, n - 1);
      var v := Repassed(t, w, snap, n - 1);
      if Due(v, snap[n - 1]) {
        SeparatedGrows(false, t, Rejoin, v);
      }
    }
  }

  /** The repeated passes keep the tally: ejected aircraft only ever move
      from the queue to the rejoin list. */
  lemma {:induction false} RepassedTally(t: int, w: Traffic, snap: seq<int>, n: nat, landed: nat, diverted: nat)
    requires Tallied(w, Rejoin, landed, diverted) && n <= |snap|
    ensures Tallied(Repassed(t, w, snap, n), Rejoin, landed, diverted)
  {
    if n > 0 {
      RepassedTally(t, w, snap, n - 1, landed, diverted);
      var v := Repassed(t, w, snap, n - 1);
      if Due(v, snap[n - 1]) {
        SeparatedTally(false, t, Rejoin, v, landed, diverted);
      }
    }
  }

  /** The outer loop over the snapshot `queue[:]`. */
  method RepeatedPasses(t: int, w0: Traffic) returns (w: Traffic)
    requires Sound(w0)
    ensures w == Repassed(t, w0, w0.queue, |w0.queue|)
  {
    var snap := w0.queue;
    w := w0;
    var i := 0;
    while i < |snap|
      invariant i <= |snap|
      invariant w == Repassed(t, w0, snap, i)
    {
      RepassedSound(t, w0, snap, i);
      if w.fleet[snap[i]].status == Approaching {
        w := SeparateAndRemove(false, t, Rejoin, w);
      }
      i := i + 1;
    }
  }

  /** What the run keeps between minutes: the keys of the fleet are the
      ids 1..nextId-1, and the traffic is tallied with no aircraft ever
      diverted. */
  predicate BaseInvariant(w: Traffic, nextId: int)
  {
    && nextId >= 1 && w.fleet.Keys == Members(Ids(nextId - 1))
    && Tallied(w, Rejoin, |WithStatus(w.fleet, Landed)|, 0)
  }

  /** The intake: an arriving aircraft gets id `nextId`. */
  function BaseIntake(t: int, arrives: bool, w: Traffic, nextId: int): Traffic
    requires Sound(w)
  {
    if arrives then Admitted(w, nextId, Arrival(nextId, t), true) else w
  }

  lemma {:induction false} BaseIntakeKeeps(t: int, arrives: bool, w: Traffic, nextId: int)
    requires BaseInvariant(w, nextId)
    ensures nextId !in w.fleet
    ensures var w' := BaseIntake(t, arrives, w, nextId);
      BaseInvariant(w', if arrives then nextId + 1 else nextId) && w'.side == w.side
  {
    AdmitNext(w, nextId, Arrival(nextId, t), true, Rejoin, |WithStatus(w.fleet, Landed)|, 0);
  }

  lemma {:induction false} RepassedKeeps(t: int, w: Traffic, nextId: int)
    requires BaseInvariant(w, nextId)
    ensures var w' := Repassed(t, w, w.queue, |w.queue|);
      BaseInvariant(w', nextId) && w.side <= w'.side
  {
    RepassedSound(t, w, w.queue, |w.queue|);
    RepassedTally(t, w, w.queue, |w.queue|, |WithStatus(w.fleet, Landed)|, 0);
  }

  lemma {:induction false} SweptKeeps(t: int, w: Traffic, nextId: int)
    requires BaseInvariant(w, nextId)
    ensures var w' := Swept(Plain, t, w); BaseInvariant(w', nextId) && w'.side == w.side
  {
    SweptTally(Plain, t, w, Rejoin, |WithStatus(w.fleet, Landed)|, 0);
    SweptEvery(Plain, t, w);
  }

  /** One minute of simulate_planes: the traffic after it and the next id.
      The rejoin list only grows at its end, so an ejected aircraft never
      re-enters the queue. */
  function BaseTick(t: int, arrives: bool, w: Traffic, nextId: int): (r: (Traffic, int))
    requires BaseInvariant(w, nextId)
    ensures BaseInvariant(r.0, r.1) && r.1 == if arrives then nextId + 1 else nextId
    ensures w.side <= r.0.side
  {
    BaseIntakeKeeps(t, arrives, w, nextId);
    var n1 := if arrives then nextId + 1 else nextId;
    var w1 := BaseIntake(t, arrives, w, nextId);
    RepassedKeeps(t, w1, n1);
    var w2 := Repassed(t, w1, w1.queue, |w1.queue|);
    SweptKeeps(t, w2, n1);
    var w3 := Swept(Plain, t, w2);
    SweptKeeps(t, w3, n1);
    (Swept(Plain, t, w3), n1)
  }

  /** The first n minutes of the run on the arrival draws. */
  function BaseRun(arrivals: seq<bool>, n: nat): (r: (Traffic, int))
    requires n <= |arrivals|
    ensures BaseInvariant(r.0, r.1)
  {
    if n == 0 then
      assert Ids(0) == [];
      (Traffic(map[], [], []), 1)
    else
      var p := BaseRun(arrivals, n - 1);
      BaseTick(n - 1, arrivals[n - 1], p.0, p.1)
  }

  /** Every aircraft of the run is approaching, waiting on the rejoin list
      or landed: none is ever diverted and none holds; and there is one
      aircraft per id handed out. */
  lemma {:induction false} BaseRunOutcome(arrivals: seq<bool>)
    ensures var (w, next) := BaseRun(arrivals, |arrivals|);
      && WithStatus(w.fleet, Montevideo) == {} && WithStatus(w.fleet, Holding) == {}
      && |w.fleet.Keys| == |w.queue| + |w.side| + |WithStatus(w.fleet, Landed)|
      && |w.fleet.Keys| == next - 1
  {
    var (w, next) := BaseRun(arrivals, |arrivals|);
    Conservation(w, Rejoin, |WithStatus(w.fleet, Landed)|, 0);
    IdsNext(next - 1);
    DistinctCard(Ids(next - 1));
  }

  /** The intake of main.py: create the aircraft, slow it when the queue
      tail appeared less than 4 minutes earlier, append it to the aircraft
      list and the queue. */
  method TakeArrival(t: int, arrives: bool, w: Traffic, planes: seq<int>, nextId: int)
    returns (w': Traffic, planes': seq<int>, nextId': int)
    requires Sound(w) && nextId >= 1 && planes == Ids(nextId - 1)
    ensures w' == BaseIntake(t, arrives, w, nextId)
    ensures nextId' == if arrives then nextId + 1 else nextId
    ensures planes' == Ids(nextId' - 1)
  {
    IdsNext(nextId - 1);
    w', planes', nextId' := w, planes, nextId;
    if arrives {
      w' := Admit(w, nextId, Arrival(nextId, t), true);
      planes' := planes + [nextId];
      nextId' := nextId + 1;
    }
  }

  /** One iteration of `for t in range(total_minutes)`. */
  method BaseMinute(t: int, arrives: bool, w: Traffic, planes: seq<int>, nextId: int)
    returns (w': Traffic, planes': seq<int>, nextId': int)
    requires BaseInvariant(w, nextId) && planes == Ids(nextId - 1)
    ensures (w', nextId') == BaseTick(t, arrives, w, nextId) && planes' == Ids(nextId' - 1)
  {
    BaseIntakeKeeps(t, arrives, w, nextId);
    var w1;
    w1, planes', nextId' := TakeArrival(t, arrives, w, planes, nextId);
    RepassedKeeps(t, w1, nextId');
    var w2 := RepeatedPasses(t, w1);
    SweptKeeps(t, w2, nextId');
    var w3, landed, touched := SweepAndRemove(Plain, t, w2);
    w' := LandRemovingInline(t, w3);
  }

  /** simulate_planes with the arrival draws given: `arrivals[t]` is the
      outcome of `random.random() < lambda_prob` at minute t. It returns
      the aircraft (as the fleet and the id list) and the number of
      minutes. */
  method SimulatePlanes(arrivals: seq<bool>) returns (fleet: Fleet, planes: seq<int>, totalMinutes: nat)
    ensures totalMinutes == |arrivals|
    ensures var (w, next) := BaseRun(arrivals, |arrivals|); fleet == w.fleet && planes == Ids(next - 1)
    ensures fleet.Keys == Members(planes) && Distinct(planes)
  {
    var w := Traffic(map[], [], []);
    var nextId := 1;
    planes := [];
    assert Ids(0) == [];
    var t := 0;
    while t < |arrivals|
      invariant t <= |arrivals|
      invariant (w, nextId) == BaseRun(arrivals, t) && planes == Ids(nextId - 1)
    {
      w, planes, nextId := BaseMinute(t, arrivals[t], w, planes, nextId);
      t := t + 1;
    }
    fleet, totalMinutes := w.fleet, |arrivals|;
    IdsNext(nextId - 1);
  }
}
