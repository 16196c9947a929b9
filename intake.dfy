/** Arrival intake, the first step of every tick: a new aircraft is created
    with the next id and appended to the aircraft list and to the queue
    tail. In main.py, Ejercicio1/simulador.py and
    Ejercicio5/simulador_ventoso.py it is first slowed when the queue tail
    appeared less than 4 minutes earlier; the storm and holding variants
    append it as created. */
module Intake {
  import opened Kinematics
  import opened Queues
  import opened Aircraft
  import opened Traffic

  /** The 4-minute check against the queue tail `prev`: an aircraft that
      appears less than 4 minutes after the tail is slowed to 20 kt below it,
      but never below its own band minimum. Only the speed is touched. */
  function Spaced(prev: PlaneState, s: PlaneState): (r: PlaneState)
    ensures r == s.(speed := r.speed)
    ensures (s.appearTime - prev.appearTime) as real >= MinSeparationMin ==> r == s
    ensures (s.appearTime - prev.appearTime) as real < MinSeparationMin ==>
      && MinSpeed(s.dist) <= r.speed && prev.speed - SpeedStep <= r.speed
      && (r.speed == MinSpeed(s.dist) || r.speed == prev.speed - SpeedStep)
    ensures (s.appearTime - prev.appearTime) as real < MinSeparationMin && prev.speed - SpeedStep >= MinSpeed(s.dist) ==>
      r.speed == prev.speed - SpeedStep
  {
    if (s.appearTime - prev.appearTime) as real < MinSeparationMin then
      s.(speed := Max(MinSpeed(s.dist), prev.speed - SpeedStep))
    else s
  }

  /** The new aircraft as it joins: checked against the queue tail when
      `check` holds and there is one. */
  function Joining(w: Traffic, s: PlaneState, check: bool): (r: PlaneState)
    requires Sound(w)
  {
    if check && |w.queue| > 0 then Spaced(w.fleet[w.queue[|w.queue| - 1]], s) else s
  }

  /** The traffic after the intake of `s` under key `id`. */
  function Admitted(w: Traffic, id: int, s: PlaneState, check: bool): Traffic
    requires Sound(w)
  {
    Traffic(w.fleet[id := Joining(w, s, check)], w.queue + [id], w.side)
  }

  /** The intake as the simulators write it: check against `queue[-1]`,
      then append to the queue. */
  method Admit(w: Traffic, id: int, s: PlaneState, check: bool) returns (w': Traffic)
    requires Sound(w)
    ensures w' == Admitted(w, id, s, check)
  {
    var plane := s;
    if check && |w.queue| > 0 {
      var prev := w.fleet[w.queue[|w.queue| - 1]];
      if (plane.appearTime - prev.appearTime) as real < MinSeparationMin {
        plane := plane.(speed := Max(MinSpeed(plane.dist), prev.speed - SpeedStep));
      }
    }
    w' := Traffic(w.fleet[id := plane], w.queue + [id], w.side);
  }

  lemma {:induction false} AdmittedSound(w: Traffic, id: int, s: PlaneState, check: bool)
    requires Sound(w) && id !in w.fleet && s.status == Approaching
    ensures Sound(Admitted(w, id, s, check))
  {
    var w' := Admitted(w, id, s, check);
    assert id !in w.queue && id !in w.side;
    DistinctSnoc(w.queue, id);
    forall k | 0 <= k < |w'.side| ensures w'.side[k] in w'.fleet && w'.side[k] !in w'.queue {
      assert w.side[k] != id;
    }
    forall k | 0 <= k < |w'.queue| ensures w'.queue[k] in w'.fleet {
      if k < |w.queue| {
        assert w'.queue[k] == w.queue[k];
      }
    }
  }

  lemma {:induction false} AdmittedCensus(w: Traffic, id: int, s: PlaneState, check: bool,
                                          sideStatus: Status, landed: nat, diverted: nat)
    requires Census(w, sideStatus, landed, diverted) && Sound(w) && id !in w.fleet
    requires s.status == Approaching && (sideStatus == Rejoin || sideStatus == Holding)
    ensures Census(Admitted(w, id, s, check), sideStatus, landed, diverted)
  {
    var r := Joining(w, s, check);
    assert r.status == Approaching;
    CensusAdd(w, id, r, sideStatus, landed, diverted);
  }

  /** A new approaching aircraft extends the fleet by its key, joins the
      queue tail and keeps the tally; only its speed may differ from the
      state it was created with. */
  lemma {:induction false} AdmittedTally(w: Traffic, id: int, s: PlaneState, check: bool,
                                         sideStatus: Status, landed: nat, diverted: nat)
    requires Tallied(w, sideStatus, landed, diverted) && id !in w.fleet
    requires s.status == Approaching && (sideStatus == Rejoin || sideStatus == Holding)
    ensures var w' := Admitted(w, id, s, check);
      && Tallied(w', sideStatus, landed, diverted)
      && w'.fleet.Keys == w.fleet.Keys + {id}
      && w'.fleet[id] == s.(speed := w'.fleet[id].speed)
      && w'.queue == w.queue + [id] && w'.side == w.side
  {
    AdmittedSound(w, id, s, check);
    AdmittedCensus(w, id, s, check, sideStatus, landed, diverted);
  }

  /** An intake under the next id `nextId` of a run whose aircraft are
      1..nextId-1 keeps the tally and extends the ids by `nextId`. */
  lemma {:induction false} AdmitNext(w: Traffic, nextId: int, s: PlaneState, check: bool,
                                     sideStatus: Status, landed: nat, diverted: nat)
    requires nextId >= 1 && w.fleet.Keys == Members(Ids(nextId - 1))
    requires Tallied(w, sideStatus, landed, diverted) && (sideStatus == Rejoin || sideStatus == Holding)
    requires s.status == Approaching
    ensures nextId !in w.fleet
    ensures var w' := Admitted(w, nextId, s, check);
      && Tallied(w', sideStatus, landed, diverted)
      && w'.fleet.Keys == Members(Ids(nextId))
      && w'.fleet[nextId] == s.(speed := w'.fleet[nextId].speed)
      && w'.queue == w.queue + [nextId] && w'.side == w.side
  {
    IdsNext(nextId - 1);
    assert nextId !in Members(Ids(nextId - 1));
    AdmittedTally(w, nextId, s, check, sideStatus, landed, diverted);
    MembersConcat(Ids(nextId - 1), [nextId]);
    assert Members([nextId]) == {nextId};
  }

  /** The ids 1, 2, ..., n in order: the aircraft list of a run that has
      created n aircraft. */
  function Ids(n: nat): (r: seq<int>)
    ensures |r| == n && forall k :: 0 <= k < n ==> r[k] == k + 1
  {
    seq(n, k => k + 1)
  }

  /** An id list of that form names each aircraft once, and the next id is
      new. */
  lemma {:induction false} IdsNext(n: nat)
    ensures Ids(n + 1) == Ids(n) + [n + 1]
    ensures Distinct(Ids(n)) && (n + 1) !in Ids(n)
  {
    DistinctIndex(Ids(n));
    assert Ids(n + 1) == Ids(n) + [n + 1];
  }
}
