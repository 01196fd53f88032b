/** Why a command is refused: each code, exactly when, over the rows and inputs before the call. */
module Refusals {
  import opened Basics
  import opened Fare
  import opened Tables
  import opened Events
  import opened Commitments
  import opened Steps
  import opened Queries
  import opened Commands
  import opened CommandProofs
  import opened MatchingSafety
  import opened Retries
  import opened Runs
  import opened Repositories
  import opened Idempotency
  import opened Guards
  import opened Outcomes

  lemma WorkRefused(db: Db, cmd: Command)
    requires Inv(db) && cmd.SetWork?
    ensures Answer(db, cmd) == Thrown(DriverNotEligible) <==> cmd.available && !cmd.eligible
    ensures Answer(db, cmd) == Thrown(WorkStateConflict) <==>
              && (cmd.available ==> cmd.eligible) && cmd.driver in db.core.work
              && db.core.work[cmd.driver].state in {Reserved, ToPickup, OnTrip}
  {
    hide Inv, Sound, Joined, Asked;
    var ix := Executed(db, cmd);
  }

  lemma CreateTripRefused(db: Db, cmd: Command)
    requires Inv(db) && cmd.CreateTrip? && Unused(db, cmd)
    ensures Answer(db, cmd) == Thrown(QuoteNotFound) <==>
              !(cmd.quote in db.books.quotes && db.books.quotes[cmd.quote].customer == cmd.customer)
    ensures cmd.quote in db.books.quotes && db.books.quotes[cmd.quote].customer == cmd.customer ==>
              var q := db.books.quotes[cmd.quote];
              && (Answer(db, cmd) == Thrown(QuoteIsExpired) <==>
                    q.status.QuoteExpired? || (q.status.QuoteActive? && q.expiresAt <= cmd.now))
              && (Answer(db, cmd) == Thrown(QuoteAlreadyConsumed) <==> q.status.Consumed? || q.status.Invalidated?)
              && (Answer(db, cmd) == Thrown(ActiveTripExists) <==>
                    q.status.QuoteActive? && cmd.now < q.expiresAt
                    && exists j :: j in db.core.jobs && j.Trip? && db.core.jobs[j].customer == cmd.customer
                                   && db.core.jobs[j].state !in {Completed, Cancelled, NoDriverAvailable})
  {
    hide Inv, Sound, Joined, Asked;
    var ix := Executed(db, cmd);
  }

  /** The search is the last to refuse: its rows cannot be ranked, or its event is already in the outbox. */
  lemma StartTripRefused(db: Db, cmd: Command)
    requires Inv(db) && cmd.StartTrip? && Unused(db, cmd)
    ensures var j := Trip(cmd.id);
            && (Answer(db, cmd) == Thrown(TripNotFound) <==> !(j in db.core.jobs && db.core.jobs[j].customer == cmd.customer))
            && (Answer(db, cmd) == Thrown(TripNotMatchable) <==>
                  && j in db.core.jobs && db.core.jobs[j].customer == cmd.customer
                  && db.core.jobs[j].state !in {Requested, State.Matching})
            && (Answer(db, cmd).Ok? || Answer(db, cmd) in {Thrown(TripNotFound), Thrown(TripNotMatchable),
                                                           Thrown(RankingInvalid), Thrown(UniqueViolation)})
  {
    hide Inv, Sound, Joined, Asked, Search, NextDriver, PendingOffer, BeginMatching, Matched;
    var ix := Executed(db, cmd);
  }

  predicate OwnOffer(db: Db, o: Id, d: Id, trip: bool) {
    o in db.core.offers && (if trip then db.core.offers[o].job.Trip? else db.core.offers[o].job.Delivery?)
    && db.core.offers[o].driver == d
  }

  lemma OfferAnswerRefused(db: Db, cmd: Command)
    requires Inv(db) && (cmd.AcceptTrip? || cmd.RejectTrip?) && Unused(db, cmd)
    ensures Answer(db, cmd) == Thrown(OfferNotFound) <==> !(cmd.offer in db.core.offers && db.core.offers[cmd.offer].job.Trip?)
    ensures Answer(db, cmd) == Thrown(OfferNotForDriver) <==>
              cmd.offer in db.core.offers && db.core.offers[cmd.offer].job.Trip? && db.core.offers[cmd.offer].driver != cmd.driver
    ensures Answer(db, cmd) == Declined(OfferAlreadyResolved) <==>
              OwnOffer(db, cmd.offer, cmd.driver, true) && !db.core.offers[cmd.offer].status.Pending?
    ensures Answer(db, cmd) == Declined(OfferIsExpired) <==>
              && OwnOffer(db, cmd.offer, cmd.driver, true)
              && db.core.offers[cmd.offer].status.Pending? && db.core.offers[cmd.offer].expiresAt <= cmd.now
  {
    hide Inv, Sound, Joined, Asked, Search, NextDriver, Refuse, Expire, Hire, Refused, ViewOf;
    var ix := Executed(db, cmd);
  }

  lemma DeliveryAnswerRefused(db: Db, cmd: Command)
    requires Inv(db) && cmd.AcceptDelivery?
    ensures Answer(db, cmd) == Thrown(OfferNotFound) <==> !(cmd.offer in db.core.offers && db.core.offers[cmd.offer].job.Delivery?)
    ensures Answer(db, cmd) == Thrown(OfferNotForDriver) <==>
              cmd.offer in db.core.offers && db.core.offers[cmd.offer].job.Delivery? && db.core.offers[cmd.offer].driver != cmd.driver
    ensures Answer(db, cmd) == Thrown(OfferAlreadyResolved) <==>
              && OwnOffer(db, cmd.offer, cmd.driver, false) && !db.core.offers[cmd.offer].status.Pending?
              && !(db.core.offers[cmd.offer].status.Accepted? && db.core.offers[cmd.offer].acceptedKey == Some(cmd.key))
    ensures Answer(db, cmd) == Thrown(OfferIsExpired) <==>
              && OwnOffer(db, cmd.offer, cmd.driver, false)
              && db.core.offers[cmd.offer].status.Pending? && db.core.offers[cmd.offer].expiresAt <= cmd.now
  {
    hide Inv, Sound, Joined, Asked, Hire, ViewOf;
    var ix := Executed(db, cmd);
  }

  predicate Assigned(db: Db, j: Job, d: Id) {
    exists a :: a in db.core.assignments && db.core.assignments[a].job == j && db.core.assignments[a].driver == d
  }

  lemma AssignedIff(db: Db, j: Job, d: Id)
    ensures AssignmentOf(db.core, j, d).Some? <==> Assigned(db, j, d)
  {
    if Assigned(db, j, d) {
      var a :| a in db.core.assignments && db.core.assignments[a].job == j && db.core.assignments[a].driver == d;
      assert a in AssignmentsOf(db.core, j, d);
    }
  }

  /** A completion of an assignment that is in order can still fail on its metering or on the Trip's stored terms. */
  lemma DriveRefused(db: Db, cmd: Command)
    requires Inv(db) && (cmd.DriveTrip? || cmd.DriveDelivery?) && Unused(db, cmd)
    ensures var j := if cmd.DriveTrip? then Trip(cmd.id) else Delivery(cmd.id);
            && (Answer(db, cmd) == Thrown(if cmd.DriveTrip? then TripNotFound else DeliveryNotFound) <==> j !in db.core.jobs)
            && (Answer(db, cmd) == Thrown(NotAssigned) <==> j in db.core.jobs && !Assigned(db, j, cmd.driver))
            && (Joined(db) && (Answer(db, cmd) == Thrown(InvalidState) <==>
                  Assigned(db, j, cmd.driver) && !StepGuard(db, j, cmd.driver, cmd.action)))
  {
    hide Inv, Sound, Joined, Asked, Assigned, StepGuard, Execute;
    var ix := Executed(db, cmd);
    DriveRefusedHow(db, ix, cmd);
  }

  lemma DriveRefusedHow(db: Db, ix: Index, cmd: Command)
    requires Sound(db, ix) && Joined(db) && (cmd.DriveTrip? || cmd.DriveDelivery?)
    ensures var j, answer := if cmd.DriveTrip? then Trip(cmd.id) else Delivery(cmd.id), Execute(db, cmd).1;
            && (answer == Thrown(if cmd.DriveTrip? then TripNotFound else DeliveryNotFound) <==> j !in db.core.jobs)
            && (answer == Thrown(NotAssigned) <==> j in db.core.jobs && !Assigned(db, j, cmd.driver))
            && (answer == Thrown(InvalidState) <==>
                  Assigned(db, j, cmd.driver) && !StepGuard(db, j, cmd.driver, cmd.action))
  {
    hide Sound, Price, Drive, Finish, AssignmentOf, AssignmentsOf, Reply, InOrder, StepDue, Assigned;
    var j := if cmd.DriveTrip? then Trip(cmd.id) else Delivery(cmd.id);
    AssignedSole(db, ix, j, cmd.driver);
    AssignedSome(db.core, j, cmd.driver);
    AssignedIff(db, j, cmd.driver);
    if AssignmentOf(db.core, j, cmd.driver).Some? { DueIff(db, ix, AssignmentOf(db.core, j, cmd.driver).value, cmd.action); }
  }

  /** A number that a completion may be metered by. */
  predicate Meterable(n: Option<int>) {
    n.Some? && 0 < n.value <= 9_007_199_254_740_991
  }

  lemma CompletionRefused(db: Db, cmd: Command)
    requires Inv(db) && cmd.DriveTrip? && Unused(db, cmd)
    ensures Joined(db)
    ensures Answer(db, cmd) == Thrown(MeteringInvalid) <==>
              && cmd.action.CompleteJob? && StepGuard(db, Trip(cmd.id), cmd.driver, CompleteJob)
              && !(Meterable(cmd.distance) && Meterable(cmd.duration))
    ensures Answer(db, cmd) == Thrown(SnapshotInvalid) <==>
              && cmd.action.CompleteJob? && StepGuard(db, Trip(cmd.id), cmd.driver, CompleteJob)
              && Meterable(cmd.distance) && Meterable(cmd.duration)
              && !MeteredGuard(db, Trip(cmd.id), cmd.distance, cmd.duration)
  {
    hide Inv, Sound, Joined, Asked, StepGuard, MeteredGuard, Execute;
    var ix := Executed(db, cmd);
    CompletionRefusedHow(db, ix, cmd);
  }

  lemma CompletionRefusedHow(db: Db, ix: Index, cmd: Command)
    requires Sound(db, ix) && Joined(db) && cmd.DriveTrip?
    ensures Execute(db, cmd).1 == Thrown(MeteringInvalid) <==>
              && cmd.action.CompleteJob? && StepGuard(db, Trip(cmd.id), cmd.driver, CompleteJob)
              && !(Meterable(cmd.distance) && Meterable(cmd.duration))
    ensures Execute(db, cmd).1 == Thrown(SnapshotInvalid) <==>
              && cmd.action.CompleteJob? && StepGuard(db, Trip(cmd.id), cmd.driver, CompleteJob)
              && Meterable(cmd.distance) && Meterable(cmd.duration)
              && !MeteredGuard(db, Trip(cmd.id), cmd.distance, cmd.duration)
  {
    hide Sound, Price, Drive, Finish, AssignmentOf, AssignmentsOf, Reply, InOrder, StepDue;
    var j := Trip(cmd.id);
    AssignedSole(db, ix, j, cmd.driver);
    AssignedSome(db.core, j, cmd.driver);
    if AssignmentOf(db.core, j, cmd.driver).Some? { DueIff(db, ix, AssignmentOf(db.core, j, cmd.driver).value, cmd.action); }
  }

  lemma CancelRefused(db: Db, cmd: Command)
    requires Inv(db) && cmd.CancelTrip? && Unused(db, cmd)
    ensures var j := Trip(cmd.id);
            && (Answer(db, cmd) == Thrown(TripNotFound) <==> !(j in db.core.jobs && db.core.jobs[j].customer == cmd.customer))
            && (Answer(db, cmd) == Thrown(CancellationNotAllowed) <==>
                  && j in db.core.jobs && db.core.jobs[j].customer == cmd.customer
                  && db.core.jobs[j].state in {InProgress, Completed, Cancelled, NoDriverAvailable})
  {
    hide Inv, Sound, Joined, Asked, PendingOffer, WorkingAssignment, Cancelling, Finish, Drop;
    var ix := Executed(db, cmd);
    if Trip(cmd.id) in db.core.jobs && Staffed(db.core.jobs[Trip(cmd.id)].state) { StaffedWorking(db, ix, Trip(cmd.id)); }
  }

  lemma StartDeliveryRefused(db: Db, cmd: Command)
    requires Inv(db) && cmd.StartDelivery? && Unused(db, cmd)
    ensures var j := Delivery(cmd.id);
            && (Answer(db, cmd) == Thrown(DeliveryNotFound) <==> !(j in db.core.jobs && db.core.jobs[j].customer == cmd.customer))
            && (Answer(db, cmd) == Thrown(DeliveryNotMatchable) <==>
                  j in db.core.jobs && db.core.jobs[j].customer == cmd.customer && !db.core.jobs[j].state.Requested?)
  {
    hide Inv, Sound, Joined, Asked, FirstClaim, Candidates, BeginMatching, OfferNext, Exhaust, Matched;
    var ix := Executed(db, cmd);
  }

  lemma CaptureRefused(db: Db, cmd: Command)
    requires Inv(db) && cmd.Capture? && Unused(db, cmd)
    ensures var j := Trip(cmd.id);
            && (Answer(db, cmd) == Thrown(TripNotFound) <==> j !in db.core.jobs)
            && (Answer(db, cmd) == Thrown(PaymentForbidden) <==> j in db.core.jobs && db.core.jobs[j].customer != cmd.customer)
            && (Answer(db, cmd) == Thrown(TripNotCompleted) <==>
                  j in db.core.jobs && db.core.jobs[j].customer == cmd.customer && !db.core.jobs[j].state.Completed?)
            && (j in db.core.jobs && db.core.jobs[j].customer == cmd.customer && db.core.jobs[j].state.Completed?
                && AttemptsOf(db.books, cmd.id) != [] ==>
                  var status := Last(AttemptsOf(db.books, cmd.id)).status;
                  && (Answer(db, cmd) == Thrown(PaymentIsPending) <==> status.PaymentPending?)
                  && (Answer(db, cmd) == Thrown(AlreadySucceeded) <==> status.Succeeded?)
                  && (Answer(db, cmd) == Thrown(ReconciliationRequired) <==> status.Unknown?))
  {
    hide Inv, Sound, Joined, Asked;
    var ix := Executed(db, cmd);
    if Trip(cmd.id) in db.core.jobs && db.core.jobs[Trip(cmd.id)].state.Completed? { Billed(db, ix, Trip(cmd.id)); }
  }
}
