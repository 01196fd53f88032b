/**
 * When a keyed command is answered, in terms of rows and inputs that can be read before it runs, and
 * so exactly which pairs of executions under one key both change the database.
 */
module Guards {
  import opened Basics
  import opened Fare
  import opened Tables
  import opened Events
  import opened Commitments
  import opened CommitmentSteps
  import opened Journals
  import opened Settlement
  import opened Steps
  import R = Ranking
  import opened Queries
  import opened Commands
  import opened CommandProofs
  import opened MatchingSafety
  import opened Retries
  import opened Runs
  import opened Repositories
  import opened Bookings
  import opened Idempotency
  import opened Rematching

  /** Every row of the candidate query has a distance and an age that the ranking takes. */
  predicate Rankable(c: Core, j: Job, excluded: Option<Id>, found: seq<R.Candidate>) {
    var rows := Candidates(c, j, excluded, found);
    forall i | 0 <= i < |rows| :: rows[i].distance >= 0.0 && rows[i].freshness >= 0.0
  }

  ghost predicate Spent(c: Core, j: Job) {
    MaxAttempt(c, j) >= 3
  }

  ghost predicate CreateTripGuard(db: Db, cmd: Command)
    requires cmd.CreateTrip?
  {
    && cmd.quote in db.books.quotes && db.books.quotes[cmd.quote].customer == cmd.customer
    && db.books.quotes[cmd.quote].status.QuoteActive? && cmd.now < db.books.quotes[cmd.quote].expiresAt
    && (forall j | j in db.core.jobs && j.Trip? && db.core.jobs[j].customer == cmd.customer ::
          db.core.jobs[j].state in {Completed, Cancelled, NoDriverAvailable})
  }

  /**
   * A first search needs rows that can be ranked. So does one made again, unless an offer is pending or
   * no attempt is left; and at version 1 there must be nobody to ask.
   */
  ghost predicate StartTripGuard(db: Db, cmd: Command)
    requires cmd.StartTrip?
  {
    var j := Trip(cmd.id);
    && j in db.core.jobs && db.core.jobs[j].customer == cmd.customer
    && match db.core.jobs[j].state
       case Requested => Rankable(db.core, j, None, cmd.found)
       case Matching =>
         Awaiting(db.core, j) || Spent(db.core, j)
         || (Rankable(db.core, j, None, cmd.found)
             && (db.core.jobs[j].version != 1 || !SomebodyToAsk(db.core, j, cmd.found)))
       case _ => false
  }

  /** An answer to a pending offer in time; a rejection also needs rows that can be ranked, or no further attempt. */
  ghost predicate OfferGuard(db: Db, cmd: Command)
    requires cmd.AcceptTrip? || cmd.RejectTrip?
  {
    && cmd.offer in db.core.offers && db.core.offers[cmd.offer].job.Trip?
    && db.core.offers[cmd.offer].driver == cmd.driver && db.core.offers[cmd.offer].status.Pending?
    && cmd.now < db.core.offers[cmd.offer].expiresAt
    && (cmd.RejectTrip? ==>
          var j := db.core.offers[cmd.offer].job;
          Spent(db.core, j) || Rankable(db.core, j, Some(cmd.driver), cmd.found))
  }

  /** The Driver's assignment to the aggregate whose step is in order. */
  ghost predicate StepGuard(db: Db, j: Job, d: Id, action: Action)
    requires Joined(db)
  {
    exists a :: a in AssignmentsOf(db.core, j, d) && StepDue(db.core, a, action)
  }

  predicate StepDue(c: Core, a: Id, action: Action)
    requires AssignmentRows(c, a)
  {
    && c.assignments[a].status.Working?
    && match action
       case ArriveAtPickup => c.jobs[c.assignments[a].job].state.DriverToPickup?
       case StartJob => c.jobs[c.assignments[a].job].state.AtPickup?
       case CompleteJob => c.jobs[c.assignments[a].job].state.InProgress?
  }

  /** A completion is metered by positive safe integers whose price under the Trip's own rules exists. */
  predicate MeteredGuard(db: Db, j: Job, distance: Option<int>, duration: Option<int>) {
    && j in db.core.jobs && db.core.jobs[j].ride.Ride?
    && distance.Some? && 0 < distance.value <= 9_007_199_254_740_991
    && duration.Some? && 0 < duration.value <= 9_007_199_254_740_991
    && Price(Metering(distance.value, duration.value, db.core.jobs[j].ride.surge), db.core.jobs[j].ride.rules).Some?
  }

  predicate CaptureGuard(db: Db, cmd: Command)
    requires cmd.Capture?
  {
    var j := Trip(cmd.id);
    && j in db.core.jobs && db.core.jobs[j].customer == cmd.customer && db.core.jobs[j].state.Completed?
    && (cmd.id in db.books.payments && db.books.payments[cmd.id] != [] ==> Last(db.books.payments[cmd.id]).status.Failed?)
  }

  /** The guards that a keyed command passes on its way to an answer. */
  ghost predicate Granted(db: Db, cmd: Command)
    requires Joined(db)
  {
    match cmd
    case CreateTrip(_, _, _, _, _) => CreateTripGuard(db, cmd)
    case StartTrip(_, _, _, _, _, _) => StartTripGuard(db, cmd)
    case AcceptTrip(_, _, _, _, _) => OfferGuard(db, cmd)
    case RejectTrip(_, _, _, _, _, _) => OfferGuard(db, cmd)
    case DriveTrip(d, id, action, _, _, distance, duration) =>
      StepGuard(db, Trip(id), d, action) && (action.CompleteJob? ==> MeteredGuard(db, Trip(id), distance, duration))
    case CancelTrip(customer, id, _, _) =>
      && Trip(id) in db.core.jobs && db.core.jobs[Trip(id)].customer == customer
      && db.core.jobs[Trip(id)].state in {Requested, Matching, DriverToPickup, AtPickup}
    case CreateDelivery(_, _, _) => true
    case StartDelivery(customer, id, _, _, _, _) =>
      && Delivery(id) in db.core.jobs && db.core.jobs[Delivery(id)].customer == customer
      && db.core.jobs[Delivery(id)].state.Requested?
    case DriveDelivery(d, id, action, _, _, _) => StepGuard(db, Delivery(id), d, action)
    case Capture(_, _, _, _, _) => CaptureGuard(db, cmd)
    case _ => false
  }

  // ---- Searches

  lemma RankedIff(c: Core, j: Job, excluded: Option<Id>, found: seq<R.Candidate>)
    ensures Rankable(c, j, excluded, found)
            <==> R.Rank(Candidates(c, j, excluded, found), R.LOCATION_FRESHNESS_SECONDS).Some?
  {
  }

  lemma SearchesIff(
      db: Db, j: Job, excluded: Option<Id>, now: Time, found: seq<R.Candidate>, kind: EventKind, act: Act,
      actor: Option<Id>)
    requires Known(db, j)
    ensures Search(db, j, excluded, now, found, kind, act, actor).Some?
            <==> !NextDriver(db, j, excluded, found, kind).RankingFails? && !NextDriver(db, j, excluded, found, kind).Clash?
  {
    hide NextDriver, Exhaust, OfferNext, MaxAttempt, Claimable;
    if NextDriver(db, j, excluded, found, kind).Chosen? {
      ChosenIsClaimable(db, j, excluded, found, kind);
      ClaimableWorks(db.core, j, excluded, NextDriver(db, j, excluded, found, kind).driver);
    }
  }

  lemma ClaimableWorks(c: Core, j: Job, excluded: Option<Id>, d: Id)
    requires Claimable(c, j, excluded, d)
    ensures d in c.work
  {
  }

  lemma {:induction false} CandidatesSame(c: Core, c': Core, j: Job, excluded: Option<Id>, found: seq<R.Candidate>)
    requires forall d :: Claimable(c, j, excluded, d) <==> Claimable(c', j, excluded, d)
    ensures Candidates(c, j, excluded, found) == Candidates(c', j, excluded, found)
  {
    hide Claimable;
    if found != [] { CandidatesSame(c, c', j, excluded, found[1..]); }
  }

  /** Refusing an offer changes neither whom the search may ask nor how often it has. */
  lemma RefusedAlike(db: Db, ix: Index, o: Id, found: seq<R.Candidate>)
    requires Sound(db, ix) && o in db.core.offers && db.core.offers[o].status.Pending? && db.core.offers[o].job.Trip?
    ensures OfferRows(db.core, o) && Known(db, db.core.offers[o].job)
    ensures var f := db.core.offers[o];
            && MaxAttempt(Refuse(db, o).core, f.job) == MaxAttempt(db.core, f.job)
            && Candidates(Refuse(db, o).core, f.job, Some(f.driver), found) == Candidates(db.core, f.job, Some(f.driver), found)
  {
    PendingRows(db, ix, o);
    PendingFacts(db.core, ix, o);
    hide Sound;
    var f, c' := db.core.offers[o], Refuse(db, o).core;
    SameCount(db.core, c', f.job);
    forall d ensures Claimable(db.core, f.job, Some(f.driver), d) <==> Claimable(c', f.job, Some(f.driver), d) {
      if d != f.driver { ClaimableAlike(db.core, c', f.job, Some(f.driver), d); }
    }
    CandidatesSame(db.core, c', f.job, Some(f.driver), found);
  }

  lemma ClaimableAlike(c: Core, c': Core, j: Job, excluded: Option<Id>, d: Id)
    requires j.Trip? && (d in c.work <==> d in c'.work) && (d in c.work ==> c.work[d] == c'.work[d])
    requires c.reservations.Keys == c'.reservations.Keys && c.offers.Keys == c'.offers.Keys
    requires forall r | r in c.reservations && (c.reservations[r].driver == d || c'.reservations[r].driver == d) ::
               c.reservations[r] == c'.reservations[r]
    requires forall o | o in c.offers :: c.offers[o].job == c'.offers[o].job && c.offers[o].driver == c'.offers[o].driver
    ensures Claimable(c, j, excluded, d) <==> Claimable(c', j, excluded, d)
  {
  }

  // ---- Command by command

  lemma RejectIff(db: Db, ix: Index, cmd: Command)
    requires Sound(db, ix) && Joined(db) && cmd.RejectTrip?
    ensures Execute(db, cmd).1.Ok? <==> OfferGuard(db, cmd)
  {
    hide Sound, MaxAttempt, Refuse, Search, NextDriver, Candidates, R.Rank, Rankable, Expire;
    var o := cmd.offer;
    if o in db.core.offers && db.core.offers[o].job.Trip? && db.core.offers[o].status.Pending? {
      var j, excluded := db.core.offers[o].job, Some(db.core.offers[o].driver);
      RefusedAlike(db, ix, o, cmd.found);
      var db1 := Refuse(db, o);
      NoClash(db, ix, o, db1, excluded, cmd.found);
      SearchesIff(db1, j, excluded, cmd.now, cmd.found, OfferReassigned, ExhaustAfterReject, excluded);
      RankedIff(db.core, j, excluded, cmd.found);
      FailsIff(db1, j, excluded, cmd.found, OfferReassigned);
    }
  }

  lemma FailsIff(db: Db, j: Job, excluded: Option<Id>, found: seq<R.Candidate>, kind: EventKind)
    requires Known(db, j)
    ensures NextDriver(db, j, excluded, found, kind).RankingFails?
            <==> !Spent(db.core, j) && R.Rank(Candidates(db.core, j, excluded, found), R.LOCATION_FRESHNESS_SECONDS).None?
    ensures NextDriver(db, j, excluded, found, kind).Clash?
            <==> && !Spent(db.core, j)
                 && R.Rank(Candidates(db.core, j, excluded, found), R.LOCATION_FRESHNESS_SECONDS).Some?
                 && FirstClaim(R.Rank(Candidates(db.core, j, excluded, found), R.LOCATION_FRESHNESS_SECONDS).value).Some?
                 && !Untold(db.journal.outbox[j], db.core.jobs[j].version, kind)
  {
    hide MaxAttempt, Untold, R.Rank, Candidates, FirstClaim;
  }

  /** What a first search starts from. */
  lemma BegunAlike(db: Db, ix: Index, j: Job, found: seq<R.Candidate>)
    requires Sound(db, ix) && Known(db, j) && j.Trip? && db.core.jobs[j].state.Requested?
    ensures var db1 := BeginMatching(db, j, None);
            && Known(db1, j) && PendingOffer(db1.core, j).None? && MaxAttempt(db1.core, j) == 0
            && Candidates(db1.core, j, None, found) == Candidates(db.core, j, None, found)
            && Untold(db1.journal.outbox[j], db1.core.jobs[j].version, OfferCreated)
  {
    var db1 := BeginMatching(db, j, None);
    NoOffersYet(db.core, ix, j);
    MaxIs(db1.core, j, 0);
    NothingAhead(db, ix, j, db.core.jobs[j].version + 1, OfferCreated);
    hide Sound, Untold, MaxAttempt;
    UnaskedPending(db1.core, j);
    var e := Event(MatchingStarted, db.core.jobs[j].version + 1, Some(Matching), {});
    assert db1.journal.outbox[j] == db.journal.outbox[j] + [e];
    UntoldThen(db.journal.outbox[j], e, db.core.jobs[j].version + 1, OfferCreated);
    forall d ensures Claimable(db.core, j, None, d) <==> Claimable(db1.core, j, None, d) {
      ClaimableAlike(db.core, db1.core, j, None, d);
    }
    CandidatesSame(db.core, db1.core, j, None, found);
  }

  lemma NoOffersYet(c: Core, ix: Index, j: Job)
    requires Linked(c, ix) && j in c.jobs && c.jobs[j].state.Requested?
    ensures OffersOf(c, j) == {}
  {
    assert JobOk(c, ix, j);
    forall o | o in c.offers ensures c.offers[o].job != j { assert OfferOk(c, ix, o); }
  }

  lemma StartTripIff(db: Db, ix: Index, cmd: Command)
    requires Sound(db, ix) && Joined(db) && Asked(db) && cmd.StartTrip?
    ensures Execute(db, cmd).1.Ok? <==> StartTripGuard(db, cmd)
  {
    hide Sound, MaxAttempt, BeginMatching, Search, NextDriver, Candidates, R.Rank, Rankable, PendingOffer, Untold,
         FirstClaim, Matched, Asked;
    var j := Trip(cmd.id);
    if j in db.core.jobs {
      RankedIff(db.core, j, None, cmd.found);
      if db.core.jobs[j].state.Requested? {
        BegunAlike(db, ix, j, cmd.found);
        var db1 := BeginMatching(db, j, None);
        SearchesIff(db1, j, None, cmd.now, cmd.found, OfferCreated, ExhaustMatching, None);
        FailsIff(db1, j, None, cmd.found, OfferCreated);
      } else if db.core.jobs[j].state.Matching? {
        SearchesIff(db, j, None, cmd.now, cmd.found, OfferCreated, ExhaustMatching, None);
        FailsIff(db, j, None, cmd.found, OfferCreated);
        AwaitingIff(db.core, j);
        if !Spent(db.core, j) { ToldIff(db, j); }
      }
    }
  }

  lemma AwaitingIff(c: Core, j: Job)
    ensures PendingOffer(c, j).Some? <==> Awaiting(c, j)
  {
    if Awaiting(c, j) {
      var o :| o in c.offers && c.offers[o].job == j && c.offers[o].status.Pending?;
      assert o in PendingOffers(c, j);
    } else {
      UnaskedPending(c, j);
    }
  }

  /** While an attempt is left, an offer has been announced as created at the Trip's version only if that is 1. */
  lemma ToldIff(db: Db, j: Job)
    requires Asked(db) && Known(db, j) && j.Trip? && db.core.jobs[j].state.Matching? && !Spent(db.core, j)
    ensures Untold(db.journal.outbox[j], db.core.jobs[j].version, OfferCreated) <==> db.core.jobs[j].version != 1
  {
    hide MaxAttempt, Untold;
    assert AskedOf(db.core, db.journal, j);
  }

  lemma AcceptIff(db: Db, cmd: Command)
    requires Joined(db) && cmd.AcceptTrip?
    ensures Execute(db, cmd).1.Ok? <==> OfferGuard(db, cmd)
  {
    hide Hire, Expire;
  }

  lemma DriveIff(db: Db, ix: Index, cmd: Command)
    requires Sound(db, ix) && Joined(db) && (cmd.DriveTrip? || cmd.DriveDelivery?)
    ensures Execute(db, cmd).1.Ok? <==> Granted(db, cmd)
  {
    hide Sound, Price, Drive, Finish, AssignmentOf, AssignmentsOf, Reply, InOrder, StepDue;
    var j := if cmd.DriveTrip? then Trip(cmd.id) else Delivery(cmd.id);
    AssignedSole(db, ix, j, cmd.driver);
    AssignedSome(db.core, j, cmd.driver);
    if AssignmentOf(db.core, j, cmd.driver).Some? { DueIff(db, ix, AssignmentOf(db.core, j, cmd.driver).value, cmd.action); }
  }

  /** The Driver's work state follows from the aggregate's. */
  lemma DueIff(db: Db, ix: Index, a: Id, action: Action)
    requires Sound(db, ix) && AssignmentRows(db.core, a)
    ensures InOrder(db.core, a, action) <==> StepDue(db.core, a, action)
  {
    if db.core.assignments[a].status.Working? { WorkingFacts(db.core, ix, a); }
    hide Sound;
  }

  lemma AssignedSome(c: Core, j: Job, d: Id)
    ensures var a := AssignmentOf(c, j, d);
            a.Some? ==> a.value in AssignmentsOf(c, j, d) && a.value in c.assignments && c.assignments[a.value].job == j
  {
  }

  lemma CancelIff(db: Db, ix: Index, cmd: Command)
    requires Sound(db, ix) && Joined(db) && cmd.CancelTrip?
    ensures Execute(db, cmd).1.Ok? <==> Granted(db, cmd)
  {
    hide Sound, Finish, Cancelling, Drop, PendingOffer, WorkingAssignment;
    var j := Trip(cmd.id);
    if j in db.core.jobs && Staffed(db.core.jobs[j].state) { StaffedWorking(db, ix, j); }
  }

  lemma StaffedWorking(db: Db, ix: Index, j: Job)
    requires Sound(db, ix) && j in db.core.jobs && Staffed(db.core.jobs[j].state)
    ensures WorkingAssignment(db.core, j).Some?
  {
    assert JobOk(db.core, ix, j);
    assert ix.staff[j] in WorkingAssignments(db.core, j);
    hide Sound;
    WorkingSole(db, ix, j);
  }

  lemma CaptureIff(db: Db, ix: Index, cmd: Command)
    requires Sound(db, ix) && Joined(db) && cmd.Capture?
    ensures Execute(db, cmd).1.Ok? <==> CaptureGuard(db, cmd)
  {
    var j := Trip(cmd.id);
    if j in db.core.jobs && db.core.jobs[j].state.Completed? { Billed(db, ix, j); }
    hide Sound;
  }

  lemma Billed(db: Db, ix: Index, j: Job)
    requires Sound(db, ix) && j in db.core.jobs && j.Trip? && db.core.jobs[j].state.Completed?
    ensures db.core.jobs[j].ride.Ride? && db.core.jobs[j].ride.finalFare.Some?
  {
    assert RideOk(db.core, db.books, ix, j);
  }

  lemma CreatesIff(db: Db, cmd: Command)
    requires Joined(db) && (cmd.CreateTrip? || cmd.CreateDelivery? || cmd.StartDelivery?)
    ensures Execute(db, cmd).1.Ok? <==> Granted(db, cmd)
  {
    hide Book, Enter, BeginMatching, Candidates, FirstClaim, OfferNext, Exhaust, Matched;
  }

  /** A keyed command whose key is unused is answered exactly when its guards hold. */
  lemma AnsweredIff(db: Db, cmd: Command)
    requires Inv(db) && KeyOf(cmd).Some? && KeyOf(cmd).value !in db.receipts
    ensures Joined(db) && (Answer(db, cmd).Ok? <==> Granted(db, cmd))
  {
    hide Inv, Holds, Sound, Joined, Asked, Waiting, Execute, StepGuard, MeteredGuard, OfferGuard, StartTripGuard,
         CreateTripGuard, CaptureGuard;
    var ix := Witness(db);
    match cmd
    case StartTrip(_, _, _, _, _, _) => StartTripIff(db, ix, cmd);
    case AcceptTrip(_, _, _, _, _) => AcceptIff(db, cmd);
    case RejectTrip(_, _, _, _, _, _) => RejectIff(db, ix, cmd);
    case DriveTrip(_, _, _, _, _, _, _) => DriveIff(db, ix, cmd);
    case DriveDelivery(_, _, _, _, _, _) => DriveIff(db, ix, cmd);
    case CancelTrip(_, _, _, _) => CancelIff(db, ix, cmd);
    case Capture(_, _, _, _, _) => CaptureIff(db, ix, cmd);
    case _ => CreatesIff(db, cmd);
  }

  // ---- Which executions change the database

  /** A keyed command changes the database exactly when its key is unused and its guards hold, or those of the late branch. */
  lemma KeyedChangesIff(db: Db, cmd: Command)
    requires Inv(db) && KeyOf(cmd).Some?
    ensures Joined(db)
    ensures Step(db, cmd) != db <==> KeyOf(cmd).value !in db.receipts && (Granted(db, cmd) || LateAnswer(db, cmd))
  {
    hide Inv, Joined, Step, Answer, Granted, LateAnswer;
    InvJoined(db);
    ChangesIff(db, cmd);
    if KeyOf(cmd).value !in db.receipts { AnsweredIff(db, cmd); }
  }

  /**
   * Two executions under one key both change the database exactly when the first comes too late to a
   * pending offer and the second, its key still unused, is an answer to an offer that is then pending,
   * in time or late; and that is another offer.
   */
  lemma KeyChangesTwiceIff(db: Db, cmd: Command, cmds: seq<Command>, again: Command)
    requires Inv(db) && KeyOf(cmd).Some? && KeyOf(again) == KeyOf(cmd)
    ensures var db' := After(Step(db, cmd), cmds);
            Step(db, cmd) != db && Step(db', again) != db' <==>
              && LateAnswer(db, cmd) && KeyOf(again).value !in db'.receipts && (again.AcceptTrip? || again.RejectTrip?)
              && (OfferGuard(db', again) || LateAnswer(db', again))
    ensures var db' := After(Step(db, cmd), cmds);
            Step(db, cmd) != db && Step(db', again) != db' ==> again.offer != cmd.offer
  {
    hide Inv, Joined, Step, Answer, After, OfferGuard, LateAnswer;
    var db' := After(Step(db, cmd), cmds);
    KeyedChangesIff(db', again);
    KeyedChangesIff(db, cmd);
    if Step(db, cmd) != db && Step(db', again) != db' { ChangesOnce(db, cmd, cmds, again); }
  }
}
