/** The lists a scheduler keeps: the approach queue and the side list
    (`rejoining`, or `holding` in the holding variant), both lists of ids
    into the fleet, and the bookkeeping that ties them to the aircraft's
    statuses. */
module Traffic {
  import opened Queues
  import opened Aircraft

  datatype Traffic = Traffic(fleet: Fleet, queue: seq<int>, side: seq<int>)

  /** Both lists name known aircraft, neither repeats one, no aircraft is on
      both, and every landed aircraft has a landing minute. */
  predicate Sound(w: Traffic)
  {
    && Listed(w.fleet, w.queue) && Listed(w.fleet, w.side)
    && Distinct(w.queue) && Distinct(w.side)
    && (forall k :: 0 <= k < |w.side| ==> w.side[k] !in w.queue)
    && FleetTimed(w.fleet)
  }

  function Members(s: seq<int>): set<int>
  {
    set x | x in s
  }

  /** A variant keeps either a rejoin list or a holding list; no aircraft
      is ever in the other of the two statuses. */
  function OtherSide(sideStatus: Status): Status
  {
    if sideStatus == Holding then Rejoin else Holding
  }

  /** Between two passes: the queue holds exactly the approaching aircraft,
      the side list exactly those in `sideStatus`, no aircraft is in the
      other side status, and the two counters are the numbers of landed and
      of diverted aircraft. */
  predicate Tallied(w: Traffic, sideStatus: Status, landed: nat, diverted: nat)
  {
    Sound(w) && Census(w, sideStatus, landed, diverted)
  }

  predicate Census(w: Traffic, sideStatus: Status, landed: nat, diverted: nat)
  {
    && Members(w.queue) == WithStatus(w.fleet, Approaching)
    && Members(w.side) == WithStatus(w.fleet, sideStatus)
    && WithStatus(w.fleet, OtherSide(sideStatus)) == {}
    && |WithStatus(w.fleet, Landed)| == landed
    && |WithStatus(w.fleet, Montevideo)| == diverted
  }

  lemma {:induction false} MembersRemove(s: seq<int>, x: int)
    requires x in s && Distinct(s)
    ensures Members(RemoveFirst(s, x)) == Members(s) - {x}
    ensures Distinct(RemoveFirst(s, x))
  {
    forall y ensures y in RemoveFirst(s, x) <==> y in s && y != x {
      RemoveFirstMember(s, x, y);
    }
    RemoveFirstMember(s, x, x);
  }

  lemma {:induction false} MembersInsert(s: seq<int>, j: nat, x: int)
    requires j <= |s|
    ensures Members(InsertAt(s, j, x)) == Members(s) + {x}
  {
    var r := InsertAt(s, j, x);
    forall y ensures y in r <==> y in s || y == x {
      assert y in r <==> y in multiset(r);
      assert y in s <==> y in multiset(s);
    }
  }

  lemma {:induction false} MembersWithout(s: seq<int>, rm: seq<int>)
    ensures Members(Without(s, rm)) == Members(s) - Members(rm)
  {
    forall y ensures y in Without(s, rm) <==> y in s && y !in rm {
      WithoutMember(s, rm, y);
    }
  }

  lemma {:induction false} MembersConcat(a: seq<int>, b: seq<int>)
    ensures Members(a + b) == Members(a) + Members(b)
  {
  }

  /** Every aircraft is in exactly one status class. */
  lemma {:induction false} StatusPartition(fleet: Fleet)
    ensures |fleet.Keys| == |WithStatus(fleet, Approaching)| + |WithStatus(fleet, Rejoin)|
      + |WithStatus(fleet, Holding)| + |WithStatus(fleet, Landed)| + |WithStatus(fleet, Montevideo)|
  {
    var a, r, h := WithStatus(fleet, Approaching), WithStatus(fleet, Rejoin), WithStatus(fleet, Holding);
    var l, m := WithStatus(fleet, Landed), WithStatus(fleet, Montevideo);
    forall id | id in fleet.Keys ensures id in a + r + h + l + m {
      match fleet[id].status
      case Approaching => assert id in a;
      case Rejoin => assert id in r;
      case Holding => assert id in h;
      case Landed => assert id in l;
      case Montevideo => assert id in m;
    }
    assert fleet.Keys == a + r + h + l + m;
    assert a !! r && (a + r) !! h && (a + r + h) !! l && (a + r + h + l) !! m;
  }

  /** With the side list taking one status and the other status class
      empty, every aircraft is queued, on the side list, landed or diverted,
      and exactly one of these. */
  lemma {:induction false} Conservation(w: Traffic, sideStatus: Status, landed: nat, diverted: nat)
    requires Tallied(w, sideStatus, landed, diverted) && (sideStatus == Rejoin || sideStatus == Holding)
    ensures |w.fleet.Keys| == |w.queue| + |w.side| + landed + diverted
  {
    StatusPartition(w.fleet);
    DistinctCard(w.queue);
    DistinctCard(w.side);
  }

  /** Soundness survives the three moves the passes make: replacing an
      aircraft's state, taking it off the side list, inserting it in the
      queue. */
  lemma {:induction false} SoundUpdate(w: Traffic, id: int, s: PlaneState)
    requires Sound(w) && id in w.fleet && Timed(KinOf(s))
    ensures Sound(w.(fleet := w.fleet[id := s]))
  {
  }

  lemma {:induction false} SoundLeave(w: Traffic, id: int)
    requires Sound(w) && id in w.side
    ensures Sound(w.(side := RemoveFirst(w.side, id)))
    ensures Members(RemoveFirst(w.side, id)) == Members(w.side) - {id}
    ensures id !in RemoveFirst(w.side, id)
  {
    var side := RemoveFirst(w.side, id);
    MembersRemove(w.side, id);
    forall k | 0 <= k < |side| ensures side[k] in w.fleet && side[k] !in w.queue {
      assert side[k] in Members(side);
      var m :| 0 <= m < |w.side| && w.side[m] == side[k];
    }
  }

  lemma {:induction false} SoundJoin(w: Traffic, id: int, j: nat)
    requires Sound(w) && id in w.fleet && id !in w.queue && id !in w.side && j <= |w.queue|
    ensures Sound(w.(queue := InsertAt(w.queue, j, id)))
    ensures Members(InsertAt(w.queue, j, id)) == Members(w.queue) + {id}
  {
    var q := InsertAt(w.queue, j, id);
    MembersInsert(w.queue, j, id);
    InsertDistinct(w.queue, j, id);
    forall k | 0 <= k < |q| ensures q[k] in w.fleet {
      assert q[k] in Members(q);
    }
    forall k | 0 <= k < |w.side| ensures w.side[k] !in q {
      assert w.side[k] != id;
    }
  }

  /** Moving one aircraft from status `from` to status `to` moves it between
      those two classes and leaves the others alone. */
  lemma {:induction false} Recount(fleet: Fleet, id: int, s: PlaneState)
    requires id in fleet
    ensures var f := fleet[id := s]; var from, to := fleet[id].status, s.status;
      && (from != to ==> WithStatus(f, from) == WithStatus(fleet, from) - {id})
      && WithStatus(f, to) == WithStatus(fleet, to) + {id}
      && (from != to ==> |WithStatus(f, to)| == |WithStatus(fleet, to)| + 1)
      && (forall st :: st != from && st != to ==> WithStatus(f, st) == WithStatus(fleet, st))
  {
    var f := fleet[id := s];
    forall st ensures WithStatus(f, st) == (WithStatus(fleet, st) - {id}) + (if s.status == st then {id} else {}) {
      WithStatusUpdate(fleet, id, s, st);
    }
  }

  /** The tally after the three ways an aircraft of the side list can move:
      it changes state but not status, it leaves the side list for good
      (diverted), or it leaves it for the queue. */
  lemma {:induction false} TallyStay(w: Traffic, sideStatus: Status, landed: nat, diverted: nat, id: int, s: PlaneState)
    requires Tallied(w, sideStatus, landed, diverted) && id in w.fleet
    requires s.status == w.fleet[id].status && Timed(KinOf(s))
    ensures Tallied(w.(fleet := w.fleet[id := s]), sideStatus, landed, diverted)
  {
    var f := w.fleet[id := s];
    forall st ensures WithStatus(f, st) == WithStatus(w.fleet, st) {
      WithStatusUpdate(w.fleet, id, s, st);
    }
    SoundUpdate(w, id, s);
  }

  lemma {:induction false} CensusDivert(w: Traffic, sideStatus: Status, landed: nat, diverted: nat, id: int, s: PlaneState)
    requires Census(w, sideStatus, landed, diverted) && id in w.fleet && Distinct(w.side) && id in w.side
    requires (sideStatus == Rejoin || sideStatus == Holding) && s.status == Montevideo
    ensures Census(Traffic(w.fleet[id := s], w.queue, RemoveFirst(w.side, id)), sideStatus, landed, diverted + 1)
  {
    assert id in Members(w.side);
    MembersRemove(w.side, id);
    Recount(w.fleet, id, s);
  }

  lemma {:induction false} TallyDivert(w: Traffic, sideStatus: Status, landed: nat, diverted: nat, id: int, s: PlaneState)
    requires Tallied(w, sideStatus, landed, diverted) && id in w.side
    requires (sideStatus == Rejoin || sideStatus == Holding) && s.status == Montevideo
    ensures Tallied(Traffic(w.fleet[id := s], w.queue, RemoveFirst(w.side, id)), sideStatus, landed, diverted + 1)
  {
    SoundUpdate(w, id, s);
    SoundLeave(w.(fleet := w.fleet[id := s]), id);
    CensusDivert(w, sideStatus, landed, diverted, id, s);
  }

  lemma {:induction false} CensusJoin(w: Traffic, sideStatus: Status, landed: nat, diverted: nat, id: int, s: PlaneState, j: nat)
    requires Census(w, sideStatus, landed, diverted) && id in w.fleet && Distinct(w.side) && id in w.side && j <= |w.queue|
    requires (sideStatus == Rejoin || sideStatus == Holding) && s.status == Approaching
    ensures Census(Traffic(w.fleet[id := s], InsertAt(w.queue, j, id), RemoveFirst(w.side, id)), sideStatus, landed, diverted)
  {
    assert id in Members(w.side);
    MembersRemove(w.side, id);
    MembersInsert(w.queue, j, id);
    Recount(w.fleet, id, s);
  }

  lemma {:induction false} TallyJoin(w: Traffic, sideStatus: Status, landed: nat, diverted: nat, id: int, s: PlaneState, j: nat)
    requires Tallied(w, sideStatus, landed, diverted) && id in w.side && j <= |w.queue|
    requires (sideStatus == Rejoin || sideStatus == Holding) && s.status == Approaching
    ensures Tallied(Traffic(w.fleet[id := s], InsertAt(w.queue, j, id), RemoveFirst(w.side, id)), sideStatus, landed, diverted)
  {
    assert id !in w.queue;
    var f := w.fleet[id := s];
    SoundUpdate(w, id, s);
    SoundLeave(w.(fleet := f), id);
    SoundJoin(w.(fleet := f, side := RemoveFirst(w.side, id)), id, j);
    CensusJoin(w, sideStatus, landed, diverted, id, s, j);
  }

  /** The census after a pass that moves a set `c` of queued aircraft out
      of the approach into status `to` (landed, or diverted) and removes
      them from the queue: the matching counter grows by |c|. */
  lemma {:induction false} CensusMove(w: Traffic, w': Traffic, sideStatus: Status, landed: nat, diverted: nat,
                                      c: set<int>, to: Status)
    requires Census(w, sideStatus, landed, diverted)
    requires (sideStatus == Rejoin || sideStatus == Holding) && (to == Landed || to == Montevideo)
    requires c <= WithStatus(w.fleet, Approaching) && w'.side == w.side
    requires Members(w'.queue) == Members(w.queue) - c
    requires WithStatus(w'.fleet, Approaching) == WithStatus(w.fleet, Approaching) - c
    requires WithStatus(w'.fleet, to) == WithStatus(w.fleet, to) + c
    requires forall st :: st != Approaching && st != to ==> WithStatus(w'.fleet, st) == WithStatus(w.fleet, st)
    ensures Census(w', sideStatus, if to == Landed then landed + |c| else landed,
                   if to == Montevideo then diverted + |c| else diverted)
  {
    assert WithStatus(w.fleet, to) !! c;
    assert WithStatus(w'.fleet, sideStatus) == WithStatus(w.fleet, sideStatus);
    if to == Landed {
      assert WithStatus(w'.fleet, Montevideo) == WithStatus(w.fleet, Montevideo);
    } else {
      assert WithStatus(w'.fleet, Landed) == WithStatus(w.fleet, Landed);
    }
  }

  /** The status classes after a pass that moves a set `c` of approaching
      aircraft to status `to` and leaves every other status alone. */
  lemma {:induction false} MovedClasses(f: Fleet, f': Fleet, c: set<int>, to: Status)
    requires f'.Keys == f.Keys && to != Approaching
    requires forall x :: x in c ==> x in f && f[x].status == Approaching
    requires forall x :: x in f ==> f'[x].status == if x in c then to else f[x].status
    ensures c <= WithStatus(f, Approaching)
    ensures WithStatus(f', Approaching) == WithStatus(f, Approaching) - c
    ensures WithStatus(f', to) == WithStatus(f, to) + c
    ensures forall st :: st != Approaching && st != to ==> WithStatus(f', st) == WithStatus(f, st)
  {
    forall x | x in c ensures x in WithStatus(f, Approaching) {
    }
    forall x ensures x in WithStatus(f', Approaching) <==> x in WithStatus(f, Approaching) - c {
    }
    forall x ensures x in WithStatus(f', to) <==> x in WithStatus(f, to) + c {
      if x in c {
        assert f[x].status == Approaching;
      }
    }
    forall st | st != Approaching && st != to ensures WithStatus(f', st) == WithStatus(f, st) {
      forall x ensures x in WithStatus(f', st) <==> x in WithStatus(f, st) {
        if x in c {
          assert f[x].status == Approaching;
        }
      }
    }
  }

  /** Soundness after a pass that keeps the aircraft and their landing
      minutes, takes the queued aircraft `rm` out of the queue and appends
      the distinct aircraft `add`, all of them taken out, to the side list. */
  lemma {:induction false} SoundAfterMove(w: Traffic, f': Fleet, rm: seq<int>, add: seq<int>)
    requires Sound(w) && f'.Keys == w.fleet.Keys && FleetTimed(f')
    requires Distinct(add) && forall x :: x in add ==> x in rm && x in w.queue
    ensures Sound(Traffic(f', Without(w.queue, rm), w.side + add))
  {
    var w' := Traffic(f', Without(w.queue, rm), w.side + add);
    WithoutDistinct(w.queue, rm);
    forall x | x in w.side ensures x !in add {
      var k :| 0 <= k < |w.side| && w.side[k] == x;
    }
    DistinctConcat(w.side, add);
    forall x ensures x in w'.queue <==> x in w.queue && x !in rm {
      WithoutMember(w.queue, rm, x);
    }
    forall k | 0 <= k < |w'.side| ensures w'.side[k] in w'.fleet && w'.side[k] !in w'.queue {
      var x := w'.side[k];
      if k >= |w.side| {
        assert x == add[k - |w.side|];
        assert x in rm && x in w.queue;
      } else {
        assert x == w.side[k];
        assert x in w.fleet && x !in w.queue;
      }
    }
    forall k | 0 <= k < |w'.queue| ensures w'.queue[k] in w'.fleet {
      assert w'.queue[k] in w.queue;
    }
  }

  /** The census after a new approaching aircraft joins the queue tail. */
  lemma {:induction false} CensusAdd(w: Traffic, id: int, s: PlaneState, sideStatus: Status, landed: nat, diverted: nat)
    requires Census(w, sideStatus, landed, diverted) && id !in w.fleet
    requires s.status == Approaching && (sideStatus == Rejoin || sideStatus == Holding)
    ensures Census(Traffic(w.fleet[id := s], w.queue + [id], w.side), sideStatus, landed, diverted)
  {
    WithStatusAdd(w.fleet, id, s, Approaching);
    WithStatusAdd(w.fleet, id, s, sideStatus);
    WithStatusAdd(w.fleet, id, s, OtherSide(sideStatus));
    WithStatusAdd(w.fleet, id, s, Landed);
    WithStatusAdd(w.fleet, id, s, Montevideo);
    MembersConcat(w.queue, [id]);
    assert Members([id]) == {id};
  }
}
