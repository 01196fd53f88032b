/**
 * What happens to a Trip after a late answer: the offer expires but the Trip's version stays, so
 * the Trip is matching with nobody being asked. Starting the match again then tells of a created
 * offer at the same version, which the outbox's unique constraint refuses.
 */
module Rematching {
  import opened Basics
  import opened Tables
  import opened Events
  import opened Commitments
  import opened Journals
  import opened Steps
  import opened History
  import R = Ranking
  import opened Queries
  import opened Commands
  import opened CommandProofs
  import opened MatchingSafety
  import opened Retries
  import opened Runs
  import opened Idempotency
  import opened Repositories

  /** Matching, and nobody is being asked. */
  ghost predicate Unasked(c: Core, j: Job) {
    j in c.jobs && j.Trip? && c.jobs[j].state.Matching? && !Awaiting(c, j)
  }

  /** A late answer leaves its Trip unasked, with row, log and outbox as they were. */
  lemma LateAnswerUnasks(db: Db, cmd: Command)
    requires Inv(db) && LateAnswer(db, cmd)
    ensures cmd.offer in db.core.offers
    ensures var j, db' := db.core.offers[cmd.offer].job, Step(db, cmd);
            Unasked(db'.core, j) && db'.core.jobs == db.core.jobs && db'.journal == db.journal
  {
    hide Inv, Holds, Sound, Joined, Waiting, Asked, Execute, HasPending, Searching, Awaiting;
    var ix := Witness(db);
    LateIff(db, cmd);
    AnswersLate(db, cmd);
    LateExpires(db, cmd);
    ExpireKeeps(db, ix, cmd.offer);
    NotAwaited(Expire(db, cmd.offer), ix, db.core.offers[cmd.offer].job);
    SearchingMatching(Expire(db, cmd.offer), ix, db.core.offers[cmd.offer].job);
  }

  lemma AnswersLate(db: Db, cmd: Command)
    requires Inv(db) && LateAnswer(db, cmd) && Answer(db, cmd) == Declined(OfferIsExpired)
    ensures Joined(db) && Execute(db, cmd).1 == Declined(OfferIsExpired) && Step(db, cmd) == Execute(db, cmd).0
    ensures cmd.AcceptTrip? || cmd.RejectTrip?
  {
    hide Inv, Joined, Execute, FingerprintOf;
    InvJoined(db);
  }

  lemma SearchingMatching(db: Db, ix: Index, j: Job)
    requires Searching(db, ix, j)
    ensures j in db.core.jobs && db.core.jobs[j].state.Matching?
  {
  }

  lemma LateExpires(db: Db, cmd: Command)
    requires Joined(db) && (cmd.AcceptTrip? || cmd.RejectTrip?) && Execute(db, cmd).1 == Declined(OfferIsExpired)
    ensures cmd.offer in db.core.offers && db.core.offers[cmd.offer].status.Pending? && db.core.offers[cmd.offer].job.Trip?
    ensures OfferRows(db.core, cmd.offer) && Execute(db, cmd).0 == Expire(db, cmd.offer)
  {
    hide Search, NextDriver, Refuse, Expire;
  }

  lemma NotAwaited(db: Db, ix: Index, j: Job)
    requires Searching(db, ix, j)
    ensures !Awaiting(db.core, j)
  {
    NonePending(db.core, ix, j);
  }

  /** The candidate that would be asked next. */
  ghost predicate SomebodyToAsk(c: Core, j: Job, found: seq<R.Candidate>) {
    var ranked := R.Rank(Candidates(c, j, None, found), R.LOCATION_FRESHNESS_SECONDS);
    ranked.Some? && FirstClaim(ranked.value).Some?
  }

  lemma UnaskedPending(c: Core, j: Job)
    requires !Awaiting(c, j)
    ensures PendingOffer(c, j).None?
  {
    assert PendingOffers(c, j) == {};
  }

  /**
   * Starting the match of an unasked Trip again, while there is a Driver and an attempt left, fails
   * and is rolled back exactly when the Trip is still at version 1, that is, when its first offer
   * was the one answered late.
   */
  lemma RetryFailsIff(db: Db, cmd: Command)
    requires Inv(db) && cmd.StartTrip? && KeyOf(cmd).value !in db.receipts
    requires Unasked(db.core, Trip(cmd.id)) && db.core.jobs[Trip(cmd.id)].customer == cmd.customer
    requires SomebodyToAsk(db.core, Trip(cmd.id), cmd.found) && MaxAttempt(db.core, Trip(cmd.id)) < MAX_OFFER_ATTEMPTS
    ensures Answer(db, cmd) == Thrown(UniqueViolation) <==> db.core.jobs[Trip(cmd.id)].version == 1
    ensures Answer(db, cmd).Ok? <==> db.core.jobs[Trip(cmd.id)].version != 1
    ensures Answer(db, cmd).Thrown? ==> Step(db, cmd) == db
  {
    hide Inv, Holds, Sound, Joined, Waiting, MaxAttempt, R.Rank, Candidates, FirstClaim, Untold, OfferNext, PendingOffer;
    var ix := Witness(db);
    var j := Trip(cmd.id);
    assert AskedOf(db.core, db.journal, j);
    UnaskedPending(db.core, j);
    JoinedKnown(db, j);
    if NextDriver(db, j, None, cmd.found, OfferCreated).Chosen? {
      ChosenIsClaimable(db, j, None, cmd.found, OfferCreated);
    }
  }

  /** Only start-matching can meet the constraint: a rejection or a sweep tells of its offer at a new version. */
  lemma OthersNeverClash(db: Db, cmd: Command)
    requires Inv(db) && (cmd.RejectTrip? || cmd.SweepTrip?)
    ensures Answer(db, cmd) != Thrown(UniqueViolation)
  {
    hide Inv, Holds, Joined, Sound, Waiting, Asked, Refuse, Lapse, Expire, NextDriver, Search;
    var ix := Witness(db);
    if cmd.offer in db.core.offers && db.core.offers[cmd.offer].job.Trip? && db.core.offers[cmd.offer].status.Pending? {
      var d := db.core.offers[cmd.offer].driver;
      PendingRows(db, ix, cmd.offer);
      NoClash(db, ix, cmd.offer, Refuse(db, cmd.offer), Some(d), cmd.found);
      NoClash(db, ix, cmd.offer, Lapse(db, cmd.offer), Some(d), cmd.found);
    }
  }

  /** A due offer that a sweep gets hold of is expired, unless the ranking refuses its input. */
  lemma SweptIsResolved(db: Db, cmd: Command)
    requires Inv(db) && cmd.SweepTrip? && !cmd.locked
    requires cmd.offer in db.core.offers && db.core.offers[cmd.offer].job.Trip?
    requires db.core.offers[cmd.offer].status.Pending? && db.core.offers[cmd.offer].expiresAt <= cmd.now
    ensures Answer(db, cmd) == Ok(SweepResponse(true)) || (Answer(db, cmd) == Thrown(RankingInvalid) && Step(db, cmd) == db)
    ensures Answer(db, cmd).Ok? ==>
              && cmd.offer in Step(db, cmd).core.offers
              && Step(db, cmd).core.offers[cmd.offer] == db.core.offers[cmd.offer].(status := Expired)
  {
    hide Inv, Holds, Joined, Sound, Waiting, Asked, Lapse, NextDriver, Search;
    var ix := Witness(db);
    var j, d := db.core.offers[cmd.offer].job, db.core.offers[cmd.offer].driver;
    PendingRows(db, ix, cmd.offer);
    OthersNeverClash(db, cmd);
    LapseKeeps(db, ix, cmd.offer);
    LapsedOffer(db, cmd.offer);
    if Answer(db, cmd).Ok? {
      SearchedRows(Lapse(db, cmd.offer), ix, j, Some(d), cmd.now, cmd.found, OfferReassigned, ExpireNoReassignment, None);
    }
  }

  lemma LapsedOffer(db: Db, o: Id)
    requires OfferRows(db.core, o) && Known(db, db.core.offers[o].job)
    ensures var c := Lapse(db, o).core; o in c.offers && c.offers[o] == db.core.offers[o].(status := Expired)
  {
  }

  // ---- A Trip whose first offer was answered late

  /** Unasked at version 1, or over without ever having had a Driver. */
  ghost predicate Stranded(c: Core, j: Job) {
    && j in c.jobs && j.Trip?
    && ((c.jobs[j].state.Matching? && c.jobs[j].version == 1 && !Awaiting(c, j))
        || c.jobs[j].state.NoDriverAvailable? || c.jobs[j].state.Cancelled?)
  }

  lemma StrandedElsewhere(db: Db, db': Db, i: Job, hired: Option<Id>, j: Job)
    requires Evolves(db, db', i, hired) && i != j && Stranded(db.core, j)
    ensures Stranded(db'.core, j)
  {
    hide Later, Hires;
  }

  /** Trying again does not help a stranded Trip: at best it ends without a Driver. */
  lemma StrandedStart(db: Db, cmd: Command)
    requires Inv(db) && Joined(db) && cmd.StartTrip? && Stranded(db.core, Trip(cmd.id))
    ensures Execute(db, cmd).0 == db || Stranded(Execute(db, cmd).0.core, Trip(cmd.id))
  {
    hide Inv, Holds, Sound, Joined, Waiting, MaxAttempt, R.Rank, Candidates, FirstClaim, Untold, OfferNext, Awaiting;
    var ix := Witness(db);
    var j := Trip(cmd.id);
    assert AskedOf(db.core, db.journal, j);
    JoinedKnown(db, j);
    if db.core.jobs[j].state.Matching? { UnaskedPending(db.core, j); }
  }

  lemma StrandedOffer(db: Db, cmd: Command, o: Id)
    requires Joined(db) && o in db.core.offers && !db.core.offers[o].status.Pending?
    requires match cmd
             case AcceptTrip(_, p, _, _, _) => p == o
             case RejectTrip(_, p, _, _, _, _) => p == o
             case SweepTrip(p, _, _, _) => p == o
             case _ => false
    ensures Execute(db, cmd).0 == db
  {
    if !cmd.SweepTrip? { ResolvedExecutes(db, cmd); } else { hide Lapse, Search, NextDriver; }
  }

  /** A stranded Trip has no pending offer and nobody at work. */
  lemma StrandedAlone(db: Db, j: Job)
    requires Inv(db) && Stranded(db.core, j)
    ensures forall o | o in db.core.offers && db.core.offers[o].job == j :: !db.core.offers[o].status.Pending?
    ensures forall a | a in db.core.assignments && db.core.assignments[a].job == j :: !db.core.assignments[a].status.Working?
  {
    var ix :| Holds(db, ix);
    forall o | o in db.core.offers && db.core.offers[o].job == j ensures !db.core.offers[o].status.Pending? {
      if db.core.offers[o].status.Pending? { PendingFacts(db.core, ix, o); }
    }
    Unstaffed(db.core, ix, j);
  }

  lemma StrandedDrive(db: Db, cmd: Command)
    requires Joined(db) && cmd.DriveTrip?
    requires forall a | a in db.core.assignments && db.core.assignments[a].job == Trip(cmd.id) ::
               !db.core.assignments[a].status.Working?
    ensures Execute(db, cmd).0 == db
  {
    var found := AssignmentOf(db.core, Trip(cmd.id), cmd.driver);
    if found.Some? { AssignmentFound(db, Trip(cmd.id), cmd.driver); }
    hide Drive, Finish, AssignmentOf;
  }

  lemma StrandedCancel(db: Db, cmd: Command)
    requires Joined(db) && cmd.CancelTrip? && Stranded(db.core, Trip(cmd.id))
    ensures Stranded(Execute(db, cmd).0.core, Trip(cmd.id))
  {
    var j := Trip(cmd.id);
    if db.core.jobs[j].state.Matching? { UnaskedPending(db.core, j); }
    hide PendingOffer, WorkingAssignment;
  }

  lemma StrandedExecute(db: Db, cmd: Command, j: Job)
    requires Inv(db) && Joined(db) && Stranded(db.core, j)
    ensures Stranded(Execute(db, cmd).0.core, j)
  {
    hide Inv, Holds, Joined, Linked, Logged, Evolves, Stranded, Execute, Waiting, Asked;
    var ix := Witness(db);
    FreshIds(db.core, ix);
    var ix' := ExecuteKeeps(db, ix, cmd);
    if Subject(db, cmd) != j {
      StrandedElsewhere(db, Execute(db, cmd).0, Subject(db, cmd), Hired(db, cmd), j);
    } else {
      StrandedAlone(db, j);
      StrandedSubject(db, cmd, j);
    }
  }

  /** Whatever is done, a stranded Trip stays stranded. */
  lemma StrandedStep(db: Db, cmd: Command, j: Job)
    requires Inv(db) && Stranded(db.core, j)
    ensures Stranded(Step(db, cmd).core, j)
  {
    hide Inv, Joined, Stranded, Execute;
    InvJoined(db);
    StrandedExecute(db, cmd, j);
  }

  lemma StrandedSubject(db: Db, cmd: Command, j: Job)
    requires Inv(db) && Joined(db) && Stranded(db.core, j) && Subject(db, cmd) == j
    requires Trip(db.core.nextId) !in db.core.jobs
    requires forall o | o in db.core.offers && db.core.offers[o].job == j :: !db.core.offers[o].status.Pending?
    requires forall a | a in db.core.assignments && db.core.assignments[a].job == j :: !db.core.assignments[a].status.Working?
    ensures Stranded(Execute(db, cmd).0.core, j)
  {
    hide Inv, Joined, Awaiting;
    if cmd.StartTrip? { StrandedStart(db, cmd); }
    else if cmd.DriveTrip? { StrandedDrive(db, cmd); }
    else if cmd.CancelTrip? { StrandedCancel(db, cmd); }
    else if cmd.AcceptTrip? || cmd.RejectTrip? || cmd.SweepTrip? {
      if cmd.offer in db.core.offers { StrandedOffer(db, cmd, cmd.offer); } else { UnknownOffer(db, cmd); }
    } else { StrandedOther(db, cmd, j); }
  }

  lemma UnknownOffer(db: Db, cmd: Command)
    requires Joined(db) && (cmd.AcceptTrip? || cmd.RejectTrip? || cmd.SweepTrip?) && cmd.offer !in db.core.offers
    ensures Execute(db, cmd).0 == db
  {
    hide Search, NextDriver, Refuse, Lapse, Expire, Hire;
  }

  lemma StrandedOther(db: Db, cmd: Command, j: Job)
    requires Joined(db) && Stranded(db.core, j) && Subject(db, cmd) == j && Trip(db.core.nextId) !in db.core.jobs
    requires cmd.SetWork? || cmd.IssueQuote? || cmd.CreateTrip? || cmd.Capture? || cmd.CreateDelivery?
             || cmd.StartDelivery? || cmd.DriveDelivery? || cmd.AcceptDelivery? || cmd.SweepDelivery?
    ensures Stranded(Execute(db, cmd).0.core, j)
  {
    hide AssignmentOf, FirstClaim, Candidates, HasActiveTrip;
  }

  /**
   * Once the first offer of a Trip has been answered late, no run of commands ever gives the Trip a
   * Driver again: it stays matching, is exhausted, or is cancelled.
   */
  lemma {:induction false} StrandedForever(db: Db, cmds: seq<Command>, j: Job)
    requires Inv(db) && Unasked(db.core, j) && db.core.jobs[j].version == 1
    ensures Stranded(After(db, cmds).core, j)
  {
    StrandedRun(db, cmds, j);
  }

  lemma {:induction false} StrandedRun(db: Db, cmds: seq<Command>, j: Job)
    requires Inv(db) && Stranded(db.core, j)
    ensures Stranded(After(db, cmds).core, j)
    decreases |cmds|
  {
    if cmds != [] {
      StrandedStep(db, cmds[0], j);
      hide Inv, Stranded, Step;
      StrandedRun(Step(db, cmds[0]), cmds[1..], j);
    }
  }
}
