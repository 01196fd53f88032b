/**
 * What the invariant says of one reachable database: a Driver has one commitment at most, and
 * reserved Drivers, pending offers and active reservations are in bijection across both schemas.
 */
module Exclusivity {
  import opened Basics
  import opened Tables
  import opened Events
  import opened Commitments
  import opened CommitmentSteps
  import opened Steps
  import opened Queries
  import opened Runs

  function PendingBy(c: Core, d: Id): set<Id> {
    set o | o in c.offers && c.offers[o].status.Pending? && c.offers[o].driver == d
  }

  function ActiveBy(c: Core, d: Id): set<Id> {
    set r | r in c.reservations && c.reservations[r].status.Active? && c.reservations[r].driver == d
  }

  function WorkingBy(c: Core, d: Id): set<Id> {
    set a | a in c.assignments && c.assignments[a].status.Working? && c.assignments[a].driver == d
  }

  /** A Driver without a row has no commitment; with one, its state says which. */
  ghost predicate Committed(c: Core, d: Id, w: Work) {
    match w.state
    case Offline => Idle(c, d) && w.trip.None? && w.delivery.None?
    case Available => Idle(c, d) && w.trip.None? && w.delivery.None?
    case Reserved =>
      && WorkingBy(c, d) == {}
      && exists o :: PendingBy(c, d) == {o} && o in c.offers && ActiveBy(c, d) == {c.offers[o].reservation}
                     && Current(w) == Some(c.offers[o].job)
                     && c.offers[o].job in c.jobs && c.jobs[c.offers[o].job].state.Matching?
    case _ =>
      && PendingBy(c, d) == {} && ActiveBy(c, d) == {}
      && exists a :: WorkingBy(c, d) == {a} && a in c.assignments && Current(w) == Some(c.assignments[a].job)
                     && c.assignments[a].job in c.jobs
                     && c.jobs[c.assignments[a].job].state in {DriverToPickup, AtPickup, InProgress}
                     && (w.state.OnTrip? <==> c.jobs[c.assignments[a].job].state.InProgress?)
  }

  predicate Idle(c: Core, d: Id) {
    PendingBy(c, d) == {} && ActiveBy(c, d) == {} && WorkingBy(c, d) == {}
  }

  /** A pending offer, an active reservation and a working assignment each bind their Driver. */
  lemma Bound(c: Core, ix: Index, d: Id)
    requires Linked(c, ix)
    ensures forall o | o in PendingBy(c, d) ::
              d in c.work && c.work[d].state.Reserved? && Current(c.work[d]) == Some(c.offers[o].job)
              && c.offers[o].job in ix.trail && |ix.trail[c.offers[o].job]| > 0 && Last(ix.trail[c.offers[o].job]) == o
    ensures forall r | r in ActiveBy(c, d) ::
              exists o :: o in PendingBy(c, d) && c.offers[o].reservation == r
    ensures forall a | a in WorkingBy(c, d) ::
              d in c.work && !c.work[d].state.Reserved? && !c.work[d].state.Available? && !c.work[d].state.Offline?
              && Current(c.work[d]) == Some(c.assignments[a].job)
              && c.assignments[a].job in ix.staff && ix.staff[c.assignments[a].job] == a
  {
    forall o | o in PendingBy(c, d)
      ensures d in c.work && c.work[d].state.Reserved? && Current(c.work[d]) == Some(c.offers[o].job)
              && c.offers[o].job in ix.trail && |ix.trail[c.offers[o].job]| > 0 && Last(ix.trail[c.offers[o].job]) == o
    {
      PendingFacts(c, ix, o);
    }
    forall r | r in ActiveBy(c, d) ensures exists o :: o in PendingBy(c, d) && c.offers[o].reservation == r {
      assert ReservationOk(c, ix, r);
      var o := Last(ix.trail[c.reservations[r].job]);
      assert OfferOk(c, ix, o);
      assert o in PendingBy(c, d);
    }
    forall a | a in WorkingBy(c, d)
      ensures d in c.work && !c.work[d].state.Reserved? && !c.work[d].state.Available? && !c.work[d].state.Offline?
              && Current(c.work[d]) == Some(c.assignments[a].job)
              && c.assignments[a].job in ix.staff && ix.staff[c.assignments[a].job] == a
    {
      assert AssignmentOk(c, ix, a);
    }
  }

  lemma ReservedHas(c: Core, ix: Index, d: Id)
    requires Linked(c, ix) && d in c.work && c.work[d].state.Reserved?
    ensures Committed(c, d, c.work[d])
  {
    assert WorkOk(c, ix, d);
    var j := Current(c.work[d]).value;
    var o := Last(ix.trail[j]);
    assert JobOk(c, ix, j) by { assert OfferOk(c, ix, o); }
    PendingFacts(c, ix, o);
    Bound(c, ix, d);
    hide Linked, HasPending, OfferOk, JobOk, WorkOk;
    assert PendingBy(c, d) == {o};
    assert ActiveBy(c, d) == {c.offers[o].reservation};
  }

  lemma EngagedHas(c: Core, ix: Index, d: Id)
    requires Linked(c, ix) && d in c.work && (c.work[d].state.ToPickup? || c.work[d].state.OnTrip?)
    ensures Committed(c, d, c.work[d])
  {
    assert WorkOk(c, ix, d);
    var j := Current(c.work[d]).value;
    var a := ix.staff[j];
    assert AssignmentOk(c, ix, a);
    Bound(c, ix, d);
    hide Linked, WorkOk;
    assert WorkingBy(c, d) == {a};
  }

  /** Every Driver holds nothing, one pending offer, or one assignment, as its work state says. */
  lemma OneCommitment(db: Db, d: Id)
    requires Inv(db)
    ensures d in db.core.work ==> Committed(db.core, d, db.core.work[d])
    ensures d !in db.core.work ==> Idle(db.core, d)
    ensures |PendingBy(db.core, d)| + |WorkingBy(db.core, d)| <= 1
    ensures |PendingBy(db.core, d)| == |ActiveBy(db.core, d)|
  {
    var ix :| Holds(db, ix);
    var c := db.core;
    Bound(c, ix, d);
    if d in c.work {
      if c.work[d].state.Reserved? { ReservedHas(c, ix, d); }
      else if !c.work[d].state.Available? && !c.work[d].state.Offline? { EngagedHas(c, ix, d); }
      else { assert WorkOk(c, ix, d); }
    }
    hide Holds;
  }

  // ---- Bijections

  lemma {:induction false} SameSize<A, B>(a: set<A>, b: set<B>, f: map<A, B>)
    requires f.Keys == a && (forall x | x in a :: f[x] in b) && (forall y | y in b :: exists x :: x in a && f[x] == y)
    requires forall x, y | x in a && y in a && f[x] == f[y] :: x == y
    ensures |a| == |b|
    decreases |a|
  {
    if a == {} {
      assert b == {};
    } else {
      var x :| x in a;
      var a', b', f' := a - {x}, b - {f[x]}, f - {x};
      forall y | y in b' ensures exists z :: z in a' && f'[z] == y {
        var z :| z in a && f[z] == y;
        assert z in a' && f'[z] == y;
      }
      SameSize(a', b', f');
    }
  }

  function AllPending(c: Core): set<Id> {
    set o | o in c.offers && c.offers[o].status.Pending?
  }

  function AllActive(c: Core): set<Id> {
    set r | r in c.reservations && c.reservations[r].status.Active?
  }

  function AllReserved(c: Core): set<Id> {
    set d | d in c.work && c.work[d].state.Reserved?
  }

  function AllWorking(c: Core): set<Id> {
    set a | a in c.assignments && c.assignments[a].status.Working?
  }

  function AllEngaged(c: Core): set<Id> {
    set d | d in c.work && (c.work[d].state.ToPickup? || c.work[d].state.OnTrip?)
  }

  function AllStaffed(c: Core): set<Job> {
    set j | j in c.jobs && c.jobs[j].state in {DriverToPickup, AtPickup, InProgress}
  }

  /** An offer's Driver and reservation determine the pending offer. */
  lemma PendingDetermined(c: Core, ix: Index, o: Id, p: Id)
    requires Linked(c, ix) && o in AllPending(c) && p in AllPending(c)
    requires c.offers[o].driver == c.offers[p].driver || c.offers[o].reservation == c.offers[p].reservation
    ensures o == p
  {
    PendingFacts(c, ix, o);
    PendingFacts(c, ix, p);
  }

  /** Pending offers and reserved Drivers. */
  lemma PendingDrivers(c: Core, ix: Index)
    requires Linked(c, ix)
    ensures |AllReserved(c)| == |AllPending(c)|
    ensures forall o | o in AllPending(c) :: c.offers[o].driver in AllReserved(c)
  {
    var drivers := map o | o in AllPending(c) :: c.offers[o].driver;
    forall o | o in AllPending(c) ensures drivers[o] in AllReserved(c) { PendingFacts(c, ix, o); }
    forall d | d in AllReserved(c) ensures exists o :: o in AllPending(c) && drivers[o] == d {
      assert WorkOk(c, ix, d);
      assert Last(ix.trail[Current(c.work[d]).value]) in AllPending(c);
    }
    forall o, p | o in AllPending(c) && p in AllPending(c) && drivers[o] == drivers[p] ensures o == p {
      PendingDetermined(c, ix, o, p);
    }
    hide Linked;
    SameSize(AllPending(c), AllReserved(c), drivers);
  }

  /** Pending offers and active reservations. */
  lemma PendingReservations(c: Core, ix: Index)
    requires Linked(c, ix)
    ensures |AllActive(c)| == |AllPending(c)|
    ensures forall o | o in AllPending(c) :: c.offers[o].reservation in AllActive(c)
  {
    var held := map o | o in AllPending(c) :: c.offers[o].reservation;
    forall o | o in AllPending(c) ensures held[o] in AllActive(c) { PendingFacts(c, ix, o); }
    forall r | r in AllActive(c) ensures exists o :: o in AllPending(c) && held[o] == r {
      assert ReservationOk(c, ix, r);
      assert Last(ix.trail[c.reservations[r].job]) in AllPending(c);
    }
    forall o, p | o in AllPending(c) && p in AllPending(c) && held[o] == held[p] ensures o == p {
      PendingDetermined(c, ix, o, p);
    }
    hide Linked;
    SameSize(AllPending(c), AllActive(c), held);
  }

  /** Working assignments and engaged Drivers. */
  lemma WorkingDrivers(c: Core, ix: Index)
    requires Linked(c, ix)
    ensures |AllEngaged(c)| == |AllWorking(c)|
    ensures forall a | a in AllWorking(c) :: c.assignments[a].driver in AllEngaged(c)
  {
    var drivers := map a | a in AllWorking(c) :: c.assignments[a].driver;
    forall a | a in AllWorking(c)
      ensures drivers[a] in AllEngaged(c) && Current(c.work[drivers[a]]) == Some(c.assignments[a].job)
      ensures c.assignments[a].job in ix.staff && ix.staff[c.assignments[a].job] == a
    {
      assert AssignmentOk(c, ix, a);
    }
    forall d | d in AllEngaged(c) ensures exists a :: a in AllWorking(c) && drivers[a] == d {
      assert WorkOk(c, ix, d);
      assert ix.staff[Current(c.work[d]).value] in AllWorking(c);
    }
    hide Linked;
    SameSize(AllWorking(c), AllEngaged(c), drivers);
  }

  /** Working assignments and staffed aggregates. */
  lemma WorkingJobs(c: Core, ix: Index)
    requires Linked(c, ix)
    ensures |AllStaffed(c)| == |AllWorking(c)|
    ensures forall a | a in AllWorking(c) :: c.assignments[a].job in AllStaffed(c)
  {
    var jobs := map a | a in AllWorking(c) :: c.assignments[a].job;
    forall a | a in AllWorking(c)
      ensures jobs[a] in AllStaffed(c) && jobs[a] in ix.staff && ix.staff[jobs[a]] == a
    {
      assert AssignmentOk(c, ix, a);
    }
    forall j | j in AllStaffed(c) ensures exists a :: a in AllWorking(c) && jobs[a] == j {
      assert JobOk(c, ix, j);
      assert ix.staff[j] in AllWorking(c);
    }
    hide Linked;
    SameSize(AllWorking(c), AllStaffed(c), jobs);
  }

  /**
   * Across both schemas, reserved Drivers, pending offers and active reservations correspond one to
   * one, and so do engaged Drivers, working assignments and staffed aggregates.
   */
  lemma Bijections(db: Db)
    requires Inv(db)
    ensures |AllReserved(db.core)| == |AllPending(db.core)| == |AllActive(db.core)|
    ensures forall o | o in AllPending(db.core) ::
              db.core.offers[o].driver in AllReserved(db.core) && db.core.offers[o].reservation in AllActive(db.core)
    ensures |AllEngaged(db.core)| == |AllWorking(db.core)| == |AllStaffed(db.core)|
    ensures forall a | a in AllWorking(db.core) ::
              db.core.assignments[a].driver in AllEngaged(db.core) && db.core.assignments[a].job in AllStaffed(db.core)
  {
    var ix :| Holds(db, ix);
    hide Linked, Inv;
    PendingDrivers(db.core, ix);
    PendingReservations(db.core, ix);
    WorkingDrivers(db.core, ix);
    WorkingJobs(db.core, ix);
  }
}
