/** The matching and driving commands: the invariant is kept and nothing is undone. */
module MatchingSafety {
  import opened Basics
  import opened Fare
  import opened Tables
  import opened Events
  import opened Commitments
  import opened CommitmentSteps
  import opened Journals
  import opened Settlement
  import opened Steps
  import opened History
  import R = Ranking
  import opened Queries
  import opened Commands
  import opened CommandProofs

  // ---- Trips

  lemma StartTripKeeps(db: Db, ix: Index, customer: Id, id: Id, now: Time, found: seq<R.Candidate>)
    returns (ix': Index)
    requires Sound(db, ix) && Joined(db)
    ensures var db' := DoStartTrip(db, customer, id, now, found).0;
            Sound(db', ix') && Evolves(db, db', Trip(id), None)
  {
    hide Sound, Evolves, Joined, HasPending, PendingOffer, Search, NextDriver, BeginMatching;
    var j := Trip(id);
    EvolvesSelf(db, j);
    ix' := ix;
    if j in db.core.jobs && db.core.jobs[j].customer == customer
       && (db.core.jobs[j].state.Requested? || db.core.jobs[j].state.Matching?) {
      StartedTrip(db, ix, j);
      var db1 := StartedTripDb(db, j);
      PendingInSound(db1, ix, j);
      if PendingOffer(db1.core, j).None? && Search(db1, j, None, now, found, OfferCreated, ExhaustMatching, None).Some? {
        ix' := SearchKeeps(db1, ix, j, None, now, found, OfferCreated, ExhaustMatching, None);
        EvolvesChain(db, db1, DoStartTrip(db, customer, id, now, found).0, j, None);
      }
    }
  }

  /** The database once the Trip is MATCHING. */
  function StartedTripDb(db: Db, j: Job): Db
    requires Known(db, j)
  {
    if db.core.jobs[j].state.Requested? then BeginMatching(db, j, None) else db
  }

  lemma StartedTrip(db: Db, ix: Index, j: Job)
    requires Sound(db, ix) && j in db.core.jobs
    requires db.core.jobs[j].state.Requested? || db.core.jobs[j].state.Matching?
    ensures Known(db, j)
    ensures var db1 := StartedTripDb(db, j);
            Sound(db1, ix) && Known(db1, j) && db1.core.jobs[j].state.Matching? && Evolves(db, db1, j, None)
  {
    AllKnown(db, ix);
    hide Linked, Logged, Settled, Evolves;
    EvolvesSelf(db, j);
    if db.core.jobs[j].state.Requested? { BeginMatchingKeeps(db, ix, j, None); }
  }

  lemma PendingInSound(db: Db, ix: Index, j: Job)
    requires Sound(db, ix) && j in db.core.jobs
    ensures PendingOffer(db.core, j).Some? <==> HasPending(db.core, ix, j)
  {
    PendingIsLast(db.core, ix, j);
  }

  lemma HireSound(db: Db, ix: Index, o: Id, key: Id, now: Time)
    requires Sound(db, ix) && o in db.core.offers && db.core.offers[o].status.Pending? && now < db.core.offers[o].expiresAt
    ensures OfferRows(db.core, o) && Known(db, db.core.offers[o].job)
    ensures Sound(Hire(db, o, key, now), EngageIndex(db.core, ix, o))
    ensures Evolves(db, Hire(db, o, key, now), db.core.offers[o].job, Some(o))
  {
    PendingRows(db, ix, o);
    FreshIds(db.core, ix);
    hide Linked, Logged, Settled, Evolves;
    HireEvolves(db, o, key, now);
    HireKeeps(db, ix, o, key, now);
  }

  /** The aggregate an offer is about. */
  function JobOf(c: Core, o: Id): Job {
    if o in c.offers then c.offers[o].job else Trip(0)
  }

  lemma AcceptTripKeeps(db: Db, ix: Index, d: Id, o: Id, key: Id, now: Time) returns (ix': Index)
    requires Sound(db, ix) && Joined(db)
    ensures var r := DoAcceptTrip(db, d, o, key, now);
            Sound(r.0, ix') && Evolves(db, r.0, JobOf(db.core, o), if r.1.Ok? then Some(o) else None)
  {
    hide Sound, Evolves, Joined, Hire, Expire;
    EvolvesSelf(db, JobOf(db.core, o));
    ix' := ix;
    if DoAcceptTrip(db, d, o, key, now).1.Ok? {
      HireSound(db, ix, o, key, now);
      ix' := EngageIndex(db.core, ix, o);
    } else if DoAcceptTrip(db, d, o, key, now).1 == Declined(OfferIsExpired) {
      ExpireKeeps(db, ix, o);
    }
  }

  lemma RejectTripKeeps(db: Db, ix: Index, d: Id, o: Id, now: Time, found: seq<R.Candidate>) returns (ix': Index)
    requires Sound(db, ix) && Joined(db)
    ensures var db' := DoRejectTrip(db, d, o, now, found).0;
            Sound(db', ix') && Evolves(db, db', JobOf(db.core, o), None)
  {
    hide Sound, Evolves, Joined, HasPending, Expire, Refuse, Search, NextDriver;
    EvolvesSelf(db, JobOf(db.core, o));
    ix' := ix;
    if DoRejectTrip(db, d, o, now, found).1.Ok? {
      RefuseKeeps(db, ix, o);
      var db1, j := Refuse(db, o), db.core.offers[o].job;
      ix' := SearchKeeps(db1, ix, j, Some(d), now, found, OfferReassigned, ExhaustAfterReject, Some(d));
      EvolvesChain(db, db1, DoRejectTrip(db, d, o, now, found).0, j, None);
    } else if DoRejectTrip(db, d, o, now, found).1 == Declined(OfferIsExpired) {
      ExpireKeeps(db, ix, o);
    }
  }

  lemma SweepTripKeeps(db: Db, ix: Index, o: Id, locked: bool, now: Time, found: seq<R.Candidate>) returns (ix': Index)
    requires Sound(db, ix) && Joined(db)
    ensures var db' := DoSweepTrip(db, o, locked, now, found).0;
            Sound(db', ix') && Evolves(db, db', JobOf(db.core, o), None)
  {
    hide Sound, Evolves, Joined, HasPending, Lapse, Search, NextDriver;
    EvolvesSelf(db, JobOf(db.core, o));
    ix' := ix;
    if DoSweepTrip(db, o, locked, now, found).1 == Ok(SweepResponse(true)) {
      LapseKeeps(db, ix, o);
      var db1, j, d := Lapse(db, o), db.core.offers[o].job, db.core.offers[o].driver;
      ix' := SearchKeeps(db1, ix, j, Some(d), now, found, OfferReassigned, ExpireNoReassignment, None);
      EvolvesChain(db, db1, DoSweepTrip(db, o, locked, now, found).0, j, None);
    }
  }

  /** A working assignment of a sound database. */
  lemma WorkingRows(db: Db, ix: Index, a: Id)
    requires Sound(db, ix) && a in db.core.assignments && db.core.assignments[a].status.Working?
    ensures AssignmentRows(db.core, a) && Known(db, db.core.assignments[a].job)
    ensures Staffed(db.core.jobs[db.core.assignments[a].job].state)
    ensures db.core.work[db.core.assignments[a].driver].state == WorkFor(db.core.jobs[db.core.assignments[a].job].state)
    ensures db.core.assignments[a].job.Trip? <==> db.core.jobs[db.core.assignments[a].job].ride.Ride?
  {
    WorkingFacts(db.core, ix, a);
    assert RideOk(db.core, db.books, ix, db.core.assignments[a].job);
  }

  lemma DriveAllowed(c: Core, ix: Index, a: Id, action: Action, custody: Option<string>)
    requires Linked(c, ix) && AssignmentRows(c, a) && InOrder(c, a, action) && !action.CompleteJob?
    requires c.assignments[a].job.Delivery? && action.StartJob? ==> custody.Some?
    ensures var p, j := TransitionPolicy(action), c.assignments[a].job;
            && CanProgress(c, ix, a, p.to, p.workTo, custody) && Legal(j, p.act, c.jobs[j].state, p.to)
            && !TerminalKind(p.kind)
  {
    hide Linked;
  }

  /** Arrival or start. */
  lemma DriveSound(db: Db, ix: Index, a: Id, action: Action, custody: Option<string>)
    requires Sound(db, ix) && AssignmentRows(db.core, a) && InOrder(db.core, a, action) && !action.CompleteJob?
    requires db.core.assignments[a].job.Delivery? && action.StartJob? ==> custody.Some?
    requires db.core.assignments[a].custody.Some? ==> custody == db.core.assignments[a].custody
    ensures Known(db, db.core.assignments[a].job)
    ensures var p := TransitionPolicy(action);
            var db' := Drive(db, a, p.to, p.workTo, custody, p.act, p.kind);
            Sound(db', ix) && Evolves(db, db', db.core.assignments[a].job, None)
  {
    var p := TransitionPolicy(action);
    WorkingRows(db, ix, a);
    DriveAllowed(db.core, ix, a, action, custody);
    hide Linked, Logged, Settled, Evolves, CanProgress, Legal, TransitionPolicy, TerminalKind, InOrder;
    DriveEvolves(db, a, p.to, p.workTo, custody, p.act, p.kind);
    DriveKeeps(db, ix, a, p.to, p.workTo, custody, p.act, p.kind);
  }

  lemma FinishSound(
      db: Db, ix: Index, a: Id, status: AssignmentStatus, to: State, ride: Ride, handoff: Option<Proof>, act: Act,
      actor: Id, kind: EventKind)
    requires Sound(db, ix) && CanRelease(db.core, ix, a, status, to, ride, handoff)
    requires Legal(db.core.assignments[a].job, act, db.core.jobs[db.core.assignments[a].job].state, to)
    requires DriverAct(act) ==> actor == db.core.assignments[a].driver
    requires TerminalKind(kind) && BilledAs(db.core.jobs[db.core.assignments[a].job], to, ride)
    ensures Known(db, db.core.assignments[a].job)
    ensures var db' := Finish(db, a, status, to, ride, handoff, act, actor, kind);
            Sound(db', ReleaseIndex(db.core, ix, a, handoff)) && Evolves(db, db', db.core.assignments[a].job, None)
  {
    WorkingRows(db, ix, a);
    FreshIds(db.core, ix);
    hide Linked, Logged, Settled, Evolves, BillOk, CanRelease, Legal;
    FinishEvolves(db, a, status, to, ride, handoff, act, actor, kind);
    FinishKeeps(db, ix, a, status, to, ride, handoff, act, actor, kind);
  }

  /** Completion of a Trip under the consumed quote's terms. */
  lemma CompleteTripSound(db: Db, ix: Index, a: Id, metering: Metering<int>)
    requires Sound(db, ix) && AssignmentRows(db.core, a) && InOrder(db.core, a, CompleteJob)
    requires db.core.assignments[a].job.Trip? && db.core.jobs[db.core.assignments[a].job].ride.Ride?
    requires var ride := db.core.jobs[db.core.assignments[a].job].ride;
             metering.surgeBps == ride.surge && Price(metering, ride.rules).Some?
    ensures Known(db, db.core.assignments[a].job)
    ensures var j, d := db.core.assignments[a].job, db.core.assignments[a].driver;
            var ride := db.core.jobs[j].ride;
            var db' := Finish(db, a, Done, Completed,
                              ride.(metering := Some(metering), finalFare := Some(Price(metering, ride.rules).value.total)),
                              None, Complete, d, CompletedEvent);
            Sound(db', ix) && Evolves(db, db', j, None)
  {
    var j, d := db.core.assignments[a].job, db.core.assignments[a].driver;
    var ride := db.core.jobs[j].ride;
    hide Linked, Logged, Settled, Evolves, Price;
    FinishSound(db, ix, a, Done, Completed,
                ride.(metering := Some(metering), finalFare := Some(Price(metering, ride.rules).value.total)),
                None, Complete, d, CompletedEvent);
  }

  lemma AssignmentFound(db: Db, j: Job, d: Id)
    requires Joined(db) && AssignmentOf(db.core, j, d).Some?
    ensures var a := AssignmentOf(db.core, j, d).value;
            AssignmentRows(db.core, a) && db.core.assignments[a].job == j && db.core.assignments[a].driver == d
  {
    assert AssignmentOf(db.core, j, d).value in AssignmentsOf(db.core, j, d);
  }

  lemma DriveTripKeeps(
      db: Db, ix: Index, d: Id, id: Id, action: Action, distance: Option<int>, duration: Option<int>)
    requires Sound(db, ix) && Joined(db)
    ensures var db' := DoDriveTrip(db, d, id, action, distance, duration).0;
            Sound(db', ix) && Evolves(db, db', Trip(id), None)
  {
    hide Sound, Evolves, Joined, Finish, Drive, AssignmentOf, Price;
    var j := Trip(id);
    EvolvesSelf(db, j);
    if DoDriveTrip(db, d, id, action, distance, duration).1.Ok? {
      AssignmentFound(db, j, d);
      var a := AssignmentOf(db.core, j, d).value;
      WorkingRows(db, ix, a);
      if action.CompleteJob? {
        var ride := db.core.jobs[j].ride;
        CompleteTripSound(db, ix, a, Metering(distance.value, duration.value, ride.surge));
      } else {
        DriveSound(db, ix, a, action, db.core.assignments[a].custody);
      }
    }
  }

  // ---- Cancellation

  lemma CancellingKeeps(db: Db, ix: Index, j: Job, drivers: set<Id>)
    requires Sound(db, ix) && Known(db, j) && j.Trip? && !HasPending(db.core, ix, j)
    requires db.core.jobs[j].state.Requested? || db.core.jobs[j].state.Matching?
    ensures Sound(Cancelling(db, j, drivers), ix) && Evolves(db, Cancelling(db, j, drivers), j, None)
  {
    hide Linked, Logged, Settled, Evolves, HasPending;
    var customer := db.core.jobs[j].customer;
    AdvanceEvolves(db, j, Cancelled, Cancel, Some(customer), CancelledEvent, Some(Cancelled), drivers);
    AdvanceKeeps(db, ix, j, Cancelled, Cancel, Some(customer), CancelledEvent, Some(Cancelled), drivers);
  }

  lemma RevokeKeeps(db: Db, ix: Index, o: Id, drivers: set<Id>)
    requires Sound(db, ix) && o in db.core.offers && db.core.offers[o].status.Pending? && db.core.offers[o].job.Trip?
    ensures OfferRows(db.core, o) && Known(Drop(db, o, Revoked, Released), db.core.offers[o].job)
    ensures var j := db.core.offers[o].job;
            var db' := Cancelling(Drop(db, o, Revoked, Released), j, drivers);
            Sound(db', ix) && Evolves(db, db', j, None)
  {
    PendingRows(db, ix, o);
    ShutKeeps(db, ix, o, Revoked, Released);
    hide Sound, Evolves, HasPending;
    var db1, j := Drop(db, o, Revoked, Released), db.core.offers[o].job;
    CancellingKeeps(db1, ix, j, drivers);
    EvolvesChain(db, db1, Cancelling(db1, j, drivers), j, None);
  }

  lemma WorkingFound(c: Core, j: Job)
    requires WorkingAssignment(c, j).Some?
    ensures var a := WorkingAssignment(c, j).value;
            a in c.assignments && c.assignments[a].job == j && c.assignments[a].status.Working?
  {
    assert WorkingAssignment(c, j).value in WorkingAssignments(c, j);
  }

  lemma DropOutSound(db: Db, ix: Index, a: Id, customer: Id)
    requires Sound(db, ix) && a in db.core.assignments && db.core.assignments[a].status.Working?
    requires AssignmentRows(db.core, a) && db.core.assignments[a].job.Trip?
    requires var s := db.core.jobs[db.core.assignments[a].job].state; s.DriverToPickup? || s.AtPickup?
    ensures Known(db, db.core.assignments[a].job)
    ensures var j := db.core.assignments[a].job;
            var db' := Finish(db, a, Dropped, Cancelled, db.core.jobs[j].ride, None, Cancel, customer, CancelledEvent);
            Sound(db', ix) && Evolves(db, db', j, None)
  {
    WorkingRows(db, ix, a);
    hide Linked, Logged, Settled, Evolves;
    FinishSound(db, ix, a, Dropped, Cancelled, db.core.jobs[db.core.assignments[a].job].ride, None, Cancel, customer,
                CancelledEvent);
  }

  lemma CancelTripKeeps(db: Db, ix: Index, customer: Id, id: Id)
    requires Sound(db, ix) && Joined(db)
    ensures var db' := DoCancelTrip(db, customer, id).0; Sound(db', ix) && Evolves(db, db', Trip(id), None)
  {
    hide Sound, Evolves, Joined, Finish, Cancelling, Drop, PendingOffer, WorkingAssignment, HasPending;
    var j := Trip(id);
    EvolvesSelf(db, j);
    if DoCancelTrip(db, customer, id).1.Ok? {
      SoundJoined(db, ix);
      JoinedKnown(db, j);
      if db.core.jobs[j].state.Requested? || db.core.jobs[j].state.Matching? {
        PendingInSound(db, ix, j);
        if PendingOffer(db.core, j).None? {
          CancellingKeeps(db, ix, j, {});
        } else {
          PendingFound(db.core, j);
          var o := PendingOffer(db.core, j).value;
          RevokeKeeps(db, ix, o, {db.core.offers[o].driver});
        }
      } else {
        WorkingFound(db.core, j);
        var a := WorkingAssignment(db.core, j).value;
        WorkingRows(db, ix, a);
        DropOutSound(db, ix, a, customer);
      }
    }
  }

  lemma JoinedKnown(db: Db, j: Job)
    requires Joined(db) && j in db.core.jobs
    ensures Known(db, j)
  {
  }

  lemma PendingFound(c: Core, j: Job)
    requires PendingOffer(c, j).Some?
    ensures var o := PendingOffer(c, j).value; o in c.offers && c.offers[o].job == j && c.offers[o].status.Pending?
  {
    assert PendingOffer(c, j).value in PendingOffers(c, j);
  }

  // ---- Deliveries

  lemma DeliveryCanOpen(db: Db, ix: Index, j: Job, excluded: Option<Id>, found: seq<R.Candidate>, d: Id)
    requires Searching(db, ix, j) && j.Delivery? && j in ix.trail && ix.trail[j] == []
    requires FirstClaim(Candidates(db.core, j, excluded, found)) == Some(d)
    ensures CanOpen(db.core, ix, j, d, 1)
  {
    var rows := Candidates(db.core, j, excluded, found);
    FirstClaimIn(rows);
    CandidatesClaimable(db.core, j, excluded, found);
    forall o | o in db.core.offers ensures db.core.offers[o].job != j { assert OfferOk(db.core, ix, o); }
  }

  lemma StartDeliveryKeeps(db: Db, ix: Index, customer: Id, id: Id, now: Time, found: seq<R.Candidate>)
    returns (ix': Index)
    requires Sound(db, ix) && Joined(db)
    ensures var db' := DoStartDelivery(db, customer, id, now, found).0;
            Sound(db', ix') && Evolves(db, db', Delivery(id), None)
  {
    hide Linked, Logged, Settled, Evolves, HasPending, BeginMatching, Exhaust, OfferNext, FirstClaim, Candidates;
    var j := Delivery(id);
    EvolvesSelf(db, j);
    ix' := ix;
    if DoStartDelivery(db, customer, id, now, found).1.Ok? {
      BeginMatchingKeeps(db, ix, j, Some(customer));
      FreshTrail(db, ix, j);
      var db1 := BeginMatching(db, j, Some(customer));
      var first := FirstClaim(Candidates(db1.core, j, None, found));
      if first.Some? {
        DeliveryCanOpen(db1, ix, j, None, found, first.value);
        ix' := OpenIndex(db1.core, ix, j);
        OfferNextKeeps(db1, ix, j, first.value, now, 1, OfferCreated);
      } else {
        ExhaustKeeps(db1, ix, j, ExhaustMatching, None);
      }
      EvolvesChain(db, db1, DoStartDelivery(db, customer, id, now, found).0, j, None);
    }
  }

  lemma FreshTrail(db: Db, ix: Index, j: Job)
    requires Sound(db, ix) && j in db.core.jobs && db.core.jobs[j].state.Requested?
    ensures j in ix.trail && ix.trail[j] == []
  {
    assert JobOk(db.core, ix, j);
  }

  /** A successful acceptance hires for the offer, unless it repeats an earlier one and changes nothing. */
  lemma AcceptDeliveryKeeps(db: Db, ix: Index, d: Id, o: Id, key: Id, now: Time) returns (ix': Index)
    requires Sound(db, ix) && Joined(db)
    ensures var db' := DoAcceptDelivery(db, d, o, key, now).0;
            && Sound(db', ix')
            && (Evolves(db, db', JobOf(db.core, o), None) || (o in db.core.offers && db.core.offers[o].job.Delivery?
                                                              && Evolves(db, db', JobOf(db.core, o), Some(o))))
  {
    hide Sound, Evolves, Joined, Hire;
    EvolvesSelf(db, JobOf(db.core, o));
    ix' := ix;
    if DoAcceptDelivery(db, d, o, key, now).1.Ok? && db.core.offers[o].status.Pending? {
      HireSound(db, ix, o, key, now);
      ix' := EngageIndex(db.core, ix, o);
    }
  }

  lemma HandoverSound(db: Db, ix: Index, a: Id, text: string) returns (ix': Index)
    requires Sound(db, ix) && AssignmentRows(db.core, a) && InOrder(db.core, a, CompleteJob)
    requires db.core.assignments[a].job.Delivery?
    ensures Known(db, db.core.assignments[a].job)
    ensures var g := db.core.assignments[a];
            var db' := Finish(db, a, Done, Completed, db.core.jobs[g.job].ride, Some(Proof(g.job, a, g.driver, text)),
                              Complete, g.driver, CompletedEvent);
            Sound(db', ix') && Evolves(db, db', g.job, None)
  {
    var g := db.core.assignments[a];
    WorkingRows(db, ix, a);
    hide Linked, Logged, Settled, Evolves;
    ix' := ReleaseIndex(db.core, ix, a, Some(Proof(g.job, a, g.driver, text)));
    FinishSound(db, ix, a, Done, Completed, db.core.jobs[g.job].ride, Some(Proof(g.job, a, g.driver, text)),
                Complete, g.driver, CompletedEvent);
  }

  lemma DriveDeliveryKeeps(db: Db, ix: Index, d: Id, id: Id, action: Action, confirmation: string)
    returns (ix': Index)
    requires Sound(db, ix) && Joined(db)
    ensures var db' := DoDriveDelivery(db, d, id, action, confirmation).0;
            Sound(db', ix') && Evolves(db, db', Delivery(id), None)
  {
    hide Sound, Evolves, Joined, Finish, Drive, AssignmentOf;
    var j := Delivery(id);
    EvolvesSelf(db, j);
    ix' := ix;
    if DoDriveDelivery(db, d, id, action, confirmation).1.Ok? {
      AssignmentFound(db, j, d);
      var a := AssignmentOf(db.core, j, d).value;
      var custody := db.core.assignments[a].custody;
      WorkingRows(db, ix, a);
      if action.CompleteJob? {
        ix' := HandoverSound(db, ix, a, confirmation);
      } else {
        DriveSound(db, ix, a, action, if action.StartJob? && custody.None? then Some(confirmation) else custody);
      }
    }
  }

  lemma SweepDeliveryKeeps(db: Db, ix: Index, o: Id, locked: bool, now: Time)
    requires Sound(db, ix) && Joined(db)
    ensures var db' := DoSweepDelivery(db, o, locked, now).0; Sound(db', ix) && Evolves(db, db', JobOf(db.core, o), None)
  {
    hide Sound, Evolves, Joined, HasPending, Expire, Exhaust;
    EvolvesSelf(db, JobOf(db.core, o));
    if DoSweepDelivery(db, o, locked, now).1 == Ok(SweepResponse(true)) {
      ExpireKeeps(db, ix, o);
      var db1, j := Expire(db, o), db.core.offers[o].job;
      ExhaustKeeps(db1, ix, j, ExpireNoReassignment, None);
      EvolvesChain(db, db1, Exhaust(db1, j, ExpireNoReassignment, None), j, None);
    }
  }
}
