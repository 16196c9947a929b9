/** The first phase of a tick in every variant: the separation pass, then
    `for p in to_remove: if p in queue: queue.remove(p)`, with the ejected
    aircraft appended, in queue order, to the rejoin (or holding) list as
    the pass meets them. */
module Ejection {
  import opened Queues
  import opened Aircraft
  import opened Separation
  import opened Traffic

  /** The actions of the pass over the queue of `w`. */
  function PassTurns(strict: bool, t: int, ejectTo: Status, w: Traffic): (rs: seq<Action>)
    requires EjectStatus(ejectTo) && Sound(w)
    ensures |rs| == |w.queue| && TimedIn(w.fleet, w.queue)
  {
    FleetTimedIn(w.fleet, w.queue);
    Turns(strict, t, ejectTo, KinsIn(w.fleet, w.queue))
  }

  /** The `to_remove` list of the pass. */
  function PassEjected(strict: bool, t: int, ejectTo: Status, w: Traffic): seq<int>
    requires EjectStatus(ejectTo) && Sound(w)
  {
    Select(w.queue, Ejections(PassTurns(strict, t, ejectTo, w)), |w.queue|)
  }

  /** The traffic after the pass and the removal. */
  function Separated(strict: bool, t: int, ejectTo: Status, w: Traffic): Traffic
    requires EjectStatus(ejectTo) && Sound(w)
  {
    var rs := PassTurns(strict, t, ejectTo, w);
    var ejected := PassEjected(strict, t, ejectTo, w);
    Traffic(Applied(t, ejectTo, w.fleet, w.queue, rs, |w.queue|), Without(w.queue, ejected), w.side + ejected)
  }

  /** An aircraft is ejected exactly when it is queued and its action is
      Eject; it was then approaching. */
  lemma {:induction false} EjectedMember(strict: bool, t: int, ejectTo: Status, w: Traffic, k: nat)
    requires EjectStatus(ejectTo) && Sound(w) && k < |w.queue|
    ensures var rs := PassTurns(strict, t, ejectTo, w);
      w.queue[k] in PassEjected(strict, t, ejectTo, w) <==> rs[k] == Eject
    ensures PassTurns(strict, t, ejectTo, w)[k] == Eject ==> w.fleet[w.queue[k]].status == Approaching
  {
    var rs := PassTurns(strict, t, ejectTo, w);
    var flags := Ejections(rs);
    SelectMember(w.queue, flags, |w.queue|, w.queue[k]);
    if w.queue[k] in PassEjected(strict, t, ejectTo, w) {
      var m :| 0 <= m < |w.queue| && flags[m] && w.queue[m] == w.queue[k];
      if m != k {
        DistinctAt(w.queue, m, k);
      }
    }
    TurnsSeparate(strict, t, ejectTo, KinsIn(w.fleet, w.queue), k);
  }

  /** Every aircraft after the pass: the ejected ones take status `ejectTo`,
      the others keep their status, and no landing time changes. */
  lemma {:induction false} SeparatedAt(strict: bool, t: int, ejectTo: Status, w: Traffic, x: int)
    requires EjectStatus(ejectTo) && Sound(w) && x in w.fleet
    ensures var w' := Separated(strict, t, ejectTo, w);
      && x in w'.fleet
      && w'.fleet[x].status == (if x in PassEjected(strict, t, ejectTo, w) then ejectTo else w.fleet[x].status)
      && w'.fleet[x].landedTime == w.fleet[x].landedTime
      && (x in PassEjected(strict, t, ejectTo, w) ==> w.fleet[x].status == Approaching)
  {
    var rs := PassTurns(strict, t, ejectTo, w);
    var ej := PassEjected(strict, t, ejectTo, w);
    if x in w.queue {
      var k :| 0 <= k < |w.queue| && w.queue[k] == x;
      AppliedAt(t, ejectTo, w.fleet, w.queue, rs, |w.queue|, k);
      ApplyTurnFields(t, ejectTo, w.fleet[x], rs[k]);
      EjectedMember(strict, t, ejectTo, w, k);
    } else {
      AppliedOff(t, ejectTo, w.fleet, w.queue, rs, |w.queue|, x);
      SelectMember(w.queue, Ejections(rs), |w.queue|, x);
    }
  }

  /** SeparatedAt for every aircraft at once. */
  lemma {:induction false} SeparatedEvery(strict: bool, t: int, ejectTo: Status, w: Traffic)
    requires EjectStatus(ejectTo) && Sound(w)
    ensures var f, f' := w.fleet, Separated(strict, t, ejectTo, w).fleet;
      var ej := PassEjected(strict, t, ejectTo, w);
      && f'.Keys == f.Keys
      && (forall x :: x in ej ==> x in f && f[x].status == Approaching)
      && (forall x :: x in f ==> f'[x].status == (if x in ej then ejectTo else f[x].status))
      && (forall x :: x in f ==> f'[x].landedTime == f[x].landedTime)
  {
    var f, f' := w.fleet, Separated(strict, t, ejectTo, w).fleet;
    var ej := PassEjected(strict, t, ejectTo, w);
    forall x | x in f ensures
      && f'[x].status == (if x in ej then ejectTo else f[x].status)
      && f'[x].landedTime == f[x].landedTime
      && (x in ej ==> f[x].status == Approaching)
    {
      SeparatedAt(strict, t, ejectTo, w, x);
    }
    forall x | x in ej ensures x in f {
      SelectMember(w.queue, Ejections(PassTurns(strict, t, ejectTo, w)), |w.queue|, x);
    }
  }

  /** The status classes after the pass: the ejected aircraft move from
      'approaching' to `ejectTo`, every other class is unchanged. */
  lemma {:induction false} SeparatedClasses(strict: bool, t: int, ejectTo: Status, w: Traffic)
    requires EjectStatus(ejectTo) && Sound(w)
    ensures var f, f' := w.fleet, Separated(strict, t, ejectTo, w).fleet;
      var ej := Members(PassEjected(strict, t, ejectTo, w));
      && ej <= WithStatus(f, Approaching)
      && WithStatus(f', Approaching) == WithStatus(f, Approaching) - ej
      && WithStatus(f', ejectTo) == WithStatus(f, ejectTo) + ej
      && (forall st :: st != Approaching && st != ejectTo ==> WithStatus(f', st) == WithStatus(f, st))
      && FleetTimed(f')
  {
    var f, f' := w.fleet, Separated(strict, t, ejectTo, w).fleet;
    SeparatedEvery(strict, t, ejectTo, w);
    MovedClasses(f, f', Members(PassEjected(strict, t, ejectTo, w)), ejectTo);
    SeparatedTimed(strict, t, ejectTo, w);
  }

  /** The pass keeps every landed aircraft's landing minute. */
  lemma {:induction false} SeparatedTimed(strict: bool, t: int, ejectTo: Status, w: Traffic)
    requires EjectStatus(ejectTo) && Sound(w)
    ensures FleetTimed(Separated(strict, t, ejectTo, w).fleet)
  {
    var f, f' := w.fleet, Separated(strict, t, ejectTo, w).fleet;
    SeparatedEvery(strict, t, ejectTo, w);
    forall x | x in f' ensures Timed(KinOf(f'[x])) {
      assert Timed(KinOf(f[x]));
    }
  }

  /** The pass with its removal keeps the traffic sound. */
  lemma {:induction false} SeparatedSound(strict: bool, t: int, ejectTo: Status, w: Traffic)
    requires EjectStatus(ejectTo) && Sound(w)
    ensures Sound(Separated(strict, t, ejectTo, w))
  {
    var rs := PassTurns(strict, t, ejectTo, w);
    var ej := PassEjected(strict, t, ejectTo, w);
    SeparatedEvery(strict, t, ejectTo, w);
    SeparatedTimed(strict, t, ejectTo, w);
    SelectDistinct(w.queue, Ejections(rs), |w.queue|);
    forall x | x in ej ensures x in w.queue {
      SelectMember(w.queue, Ejections(rs), |w.queue|, x);
    }
    SoundAfterMove(w, Separated(strict, t, ejectTo, w).fleet, ej, ej);
  }

  /** The pass keeps the aircraft, and the side list only grows at its end. */
  lemma {:induction false} SeparatedGrows(strict: bool, t: int, ejectTo: Status, w: Traffic)
    requires EjectStatus(ejectTo) && Sound(w)
    ensures var w' := Separated(strict, t, ejectTo, w);
      Sound(w') && w'.fleet.Keys == w.fleet.Keys && w.side <= w'.side
  {
    SeparatedSound(strict, t, ejectTo, w);
  }

  /** The pass with its removal moves the ejected aircraft from the queue
      to the side list and keeps the tally. */
  lemma {:induction false} SeparatedTally(strict: bool, t: int, ejectTo: Status, w: Traffic, landed: nat, diverted: nat)
    requires EjectStatus(ejectTo) && Tallied(w, ejectTo, landed, diverted)
    ensures Tallied(Separated(strict, t, ejectTo, w), ejectTo, landed, diverted)
  {
    var ej := PassEjected(strict, t, ejectTo, w);
    SeparatedSound(strict, t, ejectTo, w);
    SeparatedClasses(strict, t, ejectTo, w);
    MembersWithout(w.queue, ej);
    MembersConcat(w.side, ej);
    assert WithStatus(Separated(strict, t, ejectTo, w).fleet, Landed) == WithStatus(w.fleet, Landed);
    assert WithStatus(Separated(strict, t, ejectTo, w).fleet, Montevideo) == WithStatus(w.fleet, Montevideo);
  }

  /** `SeparationPass` followed by `RemoveAll`, as the tick runs them. */
  method SeparateAndRemove(strict: bool, t: int, ejectTo: Status, w: Traffic) returns (w': Traffic)
    requires EjectStatus(ejectTo) && Sound(w)
    ensures w' == Separated(strict, t, ejectTo, w)
  {
    FleetTimedIn(w.fleet, w.queue);
    var fleet, ejected := SeparationPass(w.fleet, w.queue, t, strict, ejectTo);
    var queue := RemoveAll(w.queue, ejected);
    w' := Traffic(fleet, queue, w.side + ejected);
  }
}
