/** What the commands on Deliveries leave behind and answer, row by row. */
module DeliveryOutcomes {
  import opened Basics
  import opened Tables
  import opened Events
  import opened Commitments
  import opened CommitmentSteps
  import opened Journals
  import opened Settlement
  import opened Steps
  import R = Ranking
  import opened Queries
  import opened Commands
  import opened CommandProofs
  import opened MatchingSafety
  import opened Retries
  import opened Runs
  import opened Guards
  import opened Searches
  import opened Outcomes

  // ---- Matching

  /**
   * A Delivery's match starts and asks the first available Driver of the query, in its order, or, if there is
   * none, is given up at once.
   */
  ghost predicate StartsDelivery(db: Db, cmd: Command, db': Db, answer: Outcome)
    requires cmd.StartDelivery? && Known(db, Delivery(cmd.id))
  {
    var j := Delivery(cmd.id);
    var row, db1, o := db.core.jobs[j], AfterStart(db, j, Some(cmd.customer)), db.core.nextId + 1;
    && row.customer == cmd.customer && row.state.Requested?
    && ((exists k: nat :: FirstAvailable(db.core, cmd.found, k) && AsksFirst(db1, db', j, cmd.found[k].driver, cmd.now)
                          && answer == Ok(MatchResponse(j, Matching, row.version + 1, Some(
                               OfferView(o, j, cmd.found[k].driver, 1, Pending, cmd.now + 20_000, Matching, row.version + 1)))))
        || (NoneAvailable(db.core, cmd.found) && Same(db', GivenUp(db1, j, ExhaustMatching, None))
            && answer == Ok(MatchResponse(j, NoDriverAvailable, row.version + 2, None))))
  }

  predicate AsksFirst(db1: Db, db': Db, j: Job, d: Id, now: Time)
    requires Known(db1, j)
  {
    d in db1.core.work && Same(db', AskedFor(db1, j, d, now, 1, OfferCreated))
  }

  predicate NoneAvailable(c: Core, found: seq<R.Candidate>) {
    forall i | 0 <= i < |found| ::
      !(found[i].driver in c.work && c.work[found[i].driver].state.Available? && !found[i].conflict)
  }

  lemma StartDeliveryOutcome(db: Db, cmd: Command)
    requires Inv(db) && cmd.StartDelivery? && Unused(db, cmd) && Answer(db, cmd).Ok?
    ensures Known(db, Delivery(cmd.id)) && StartsDelivery(db, cmd, Step(db, cmd), Answer(db, cmd))
  {
    hide Inv, Sound, Asked, Joined, Execute, AskedFor, AfterStart, GivenUp, NoneAvailable, Step, Answer;
    var ix := Executed(db, cmd);
    DeliveryStartedHow(db, ix, cmd);
    if k: nat :| FirstAvailable(db.core, cmd.found, k)
                 && AsksFirst(AfterStart(db, Delivery(cmd.id), Some(cmd.customer)), Execute(db, cmd).0, Delivery(cmd.id),
                              cmd.found[k].driver, cmd.now) {
      assert AsksFirst(AfterStart(db, Delivery(cmd.id), Some(cmd.customer)), Step(db, cmd), Delivery(cmd.id),
                       cmd.found[k].driver, cmd.now);
    }
  }

  lemma DeliveryStartedHow(db: Db, ix: Index, cmd: Command)
    requires Sound(db, ix) && Joined(db) && cmd.StartDelivery? && Execute(db, cmd).1.Ok?
    ensures Known(db, Delivery(cmd.id)) && StartsDelivery(db, cmd, Execute(db, cmd).0, Execute(db, cmd).1)
  {
    hide Sound, Joined, Candidates, FirstClaim, Advance, OfferNext;
    var j := Delivery(cmd.id);
    JobKnown(db, j);
    StartIs(db, j, Some(cmd.customer));
    StartedTables(db, ix, j, cmd.customer);
    var db1 := BeginMatching(db, j, Some(cmd.customer));
    DeliveryChooses(db1.core, j, cmd.found);
    var first := FirstClaim(Candidates(db1.core, j, None, cmd.found));
    if first.Some? {
      var k: nat :| FirstAvailable(db1.core, cmd.found, k) && cmd.found[k].driver == first.value;
      SameFirst(db.core, db1.core, cmd.found, k);
      AskedForIs(db1, ix, j, first.value, cmd.now, 1, OfferCreated);
      assert AsksFirst(AfterStart(db, j, Some(cmd.customer)), Execute(db, cmd).0, j, cmd.found[k].driver, cmd.now);
    } else {
      SteppedIs(db1, j, NoDriverAvailable, ExhaustMatching, None, NoDriverEvent, Some(NoDriverAvailable), {});
      assert NoneAvailable(db.core, cmd.found);
    }
  }

  lemma StartedTables(db: Db, ix: Index, j: Job, customer: Id)
    requires Sound(db, ix) && Known(db, j) && j.Delivery? && db.core.jobs[j].state.Requested?
    ensures var db1 := BeginMatching(db, j, Some(customer));
            && Sound(db1, ix) && Known(db1, j)
            && db1.core.work == db.core.work && db1.core.nextId == db.core.nextId
            && db1.core.jobs[j].state.Matching? && db1.core.jobs[j].version == db.core.jobs[j].version + 1
  {
    hide Linked, Logged, Settled;
    BeginMatchingKeeps(db, ix, j, Some(customer));
  }

  lemma SameFirst(c: Core, c': Core, found: seq<R.Candidate>, k: nat)
    requires c'.work == c.work && FirstAvailable(c', found, k)
    ensures FirstAvailable(c, found, k) && found[k].driver in c.work && c.work[found[k].driver].state.Available?
  {
  }

  /**
   * A Driver accepts an offer of a Delivery in time, once; the same key later is answered with the offer and the
   * Delivery as they then are. A refusal, the late one included, leaves no trace.
   */
  lemma AcceptDeliveryOutcome(db: Db, cmd: Command)
    requires Inv(db) && cmd.AcceptDelivery?
    ensures Answer(db, cmd).Ok? <==>
              && cmd.offer in db.core.offers && db.core.offers[cmd.offer].job.Delivery?
              && db.core.offers[cmd.offer].driver == cmd.driver
              && ((db.core.offers[cmd.offer].status.Accepted? && db.core.offers[cmd.offer].acceptedKey == Some(cmd.key))
                  || (db.core.offers[cmd.offer].status.Pending? && cmd.now < db.core.offers[cmd.offer].expiresAt))
    ensures !Answer(db, cmd).Ok? ==> Step(db, cmd) == db
    ensures Answer(db, cmd).Ok? ==>
              && OfferRows(db.core, cmd.offer) && Known(db, db.core.offers[cmd.offer].job)
              && AcceptsDelivery(db, cmd, Step(db, cmd), Answer(db, cmd))
  {
    hide Inv, Sound, Asked, Joined, Execute, HiredFor, Step, Answer;
    var ix := Executed(db, cmd);
    ReceiptsStay(db, cmd);
    DeliveryAcceptedHow(db, ix, cmd);
  }

  predicate AcceptsDelivery(db: Db, cmd: Command, db': Db, answer: Outcome)
    requires cmd.AcceptDelivery? && OfferRows(db.core, cmd.offer) && Known(db, db.core.offers[cmd.offer].job)
  {
    var f := db.core.offers[cmd.offer];
    var row := db.core.jobs[f.job];
    if f.status.Pending? then
      && Same(db', HiredFor(db, cmd.offer, cmd.key, cmd.now))
      && answer == Ok(OfferResponse(Viewed(f, cmd.offer, Accepted, DriverToPickup, row.version + 1)))
    else db' == db && answer == Ok(OfferResponse(Viewed(f, cmd.offer, Accepted, row.state, row.version)))
  }

  lemma DeliveryAcceptedHow(db: Db, ix: Index, cmd: Command)
    requires Sound(db, ix) && Joined(db) && cmd.AcceptDelivery?
    ensures Execute(db, cmd).1.Ok? <==>
              && cmd.offer in db.core.offers && db.core.offers[cmd.offer].job.Delivery?
              && db.core.offers[cmd.offer].driver == cmd.driver
              && ((db.core.offers[cmd.offer].status.Accepted? && db.core.offers[cmd.offer].acceptedKey == Some(cmd.key))
                  || (db.core.offers[cmd.offer].status.Pending? && cmd.now < db.core.offers[cmd.offer].expiresAt))
    ensures !Execute(db, cmd).1.Ok? ==> Execute(db, cmd).0 == db
    ensures Execute(db, cmd).1.Ok? ==>
              && OfferRows(db.core, cmd.offer) && Known(db, db.core.offers[cmd.offer].job)
              && AcceptsDelivery(db, cmd, Execute(db, cmd).0, Execute(db, cmd).1)
  {
    hide Sound, Joined, Hire;
    if Execute(db, cmd).1.Ok? {
      OfferKnown(db, cmd.offer);
      if db.core.offers[cmd.offer].status.Pending? { HiredForIs(db, ix, cmd.offer, cmd.key, cmd.now); }
    }
  }

  lemma OfferKnown(db: Db, o: Id)
    requires Joined(db) && o in db.core.offers
    ensures OfferRows(db.core, o) && Known(db, db.core.offers[o].job)
  {
  }

  /** A sweep ends a pending, due Delivery offer that it gets hold of, and with it the Delivery's match. */
  lemma SweepDeliveryOutcome(db: Db, cmd: Command)
    requires Inv(db) && cmd.SweepDelivery?
    ensures Answer(db, cmd) == Ok(SweepResponse(
              && cmd.offer in db.core.offers && db.core.offers[cmd.offer].job.Delivery?
              && db.core.offers[cmd.offer].status.Pending? && db.core.offers[cmd.offer].expiresAt <= cmd.now && !cmd.locked))
    ensures Answer(db, cmd) == Ok(SweepResponse(false)) ==> Step(db, cmd) == db
    ensures Answer(db, cmd) == Ok(SweepResponse(true)) ==>
              && OfferRows(db.core, cmd.offer) && var j := db.core.offers[cmd.offer].job;
                 && Known(Ended(db, cmd.offer, Expired, Lapsed), j)
                 && Same(Step(db, cmd), GivenUp(Ended(db, cmd.offer, Expired, Lapsed), j, ExpireNoReassignment, None))
  {
    hide Inv, Sound, Asked, Joined, Advance, Stepped, Drop, Ended;
    var ix := Executed(db, cmd);
    ReceiptsStay(db, cmd);
    if cmd.offer in db.core.offers && db.core.offers[cmd.offer].status.Pending? {
      OfferKnown(db, cmd.offer);
      EndedIs(db, ix, cmd.offer, Expired, Lapsed);
      EndedKnown(db, cmd.offer);
      SteppedIs(Ended(db, cmd.offer, Expired, Lapsed), db.core.offers[cmd.offer].job, NoDriverAvailable, ExpireNoReassignment,
                None, NoDriverEvent, Some(NoDriverAvailable), {});
    }
  }

  // ---- Driving

  /** The handoff recorded under the next id. */
  function HandedOver(db: Db, proof: Proof): Db {
    db.(core := db.core.(nextId := db.core.nextId + 1, proofs := db.core.proofs[db.core.nextId := proof]))
  }

  /**
   * The assigned Driver arrives, takes custody with the given confirmation, or hands the parcel over, which adds
   * the one proof and frees the Driver.
   */
  predicate DrivesDelivery(db: Db, cmd: Command, a: Id, db': Db, answer: Outcome)
    requires cmd.DriveDelivery? && AssignmentRows(db.core, a) && Known(db, db.core.assignments[a].job)
  {
    var g := db.core.assignments[a];
    var row := db.core.jobs[g.job];
    && g.job == Delivery(cmd.id) && g.driver == cmd.driver && g.status.Working?
    && match cmd.action
       case ArriveAtPickup =>
         && row.state.DriverToPickup?
         && Same(db', Driven(db, a, AtPickup, ToPickup, g.custody, Arrive, DriverArrived))
         && answer == Ok(JobResponse(g.job, AtPickup, row.version + 1, Some(g.driver), None, None))
       case StartJob =>
         && row.state.AtPickup?
         && Same(db', Driven(db, a, InProgress, OnTrip, if g.custody.None? then Some(cmd.confirmation) else g.custody, Start, Started))
         && answer == Ok(JobResponse(g.job, InProgress, row.version + 1, Some(g.driver), None, None))
       case CompleteJob =>
         && row.state.InProgress?
         && Same(db', HandedOver(Over(db, a, Done, Completed, Parcel, Complete, g.driver, CompletedEvent),
                                 Proof(g.job, a, g.driver, cmd.confirmation)))
         && answer == Ok(JobResponse(g.job, Completed, row.version + 1, Some(g.driver), None, None))
  }

  lemma DriveDeliveryOutcome(db: Db, cmd: Command) returns (a: Id)
    requires Inv(db) && cmd.DriveDelivery? && Unused(db, cmd) && Answer(db, cmd).Ok?
    ensures AssignmentRows(db.core, a) && Known(db, db.core.assignments[a].job)
    ensures DrivesDelivery(db, cmd, a, Step(db, cmd), Answer(db, cmd))
  {
    hide Inv, Sound, Asked, Joined, Execute, Driven, Over, HandedOver, Step, Answer;
    var ix := Executed(db, cmd);
    a := DeliveryDrivenHow(db, ix, cmd);
  }

  lemma DeliveryDrivenHow(db: Db, ix: Index, cmd: Command) returns (a: Id)
    requires Sound(db, ix) && Joined(db) && cmd.DriveDelivery? && Execute(db, cmd).1.Ok?
    ensures AssignmentRows(db.core, a) && Known(db, db.core.assignments[a].job)
    ensures DrivesDelivery(db, cmd, a, Execute(db, cmd).0, Execute(db, cmd).1)
  {
    hide Sound, Joined, AssignmentOf;
    AssignmentFound(db, Delivery(cmd.id), cmd.driver);
    a := AssignmentOf(db.core, Delivery(cmd.id), cmd.driver).value;
    WorkingRow(db, ix, a);
    ParcelRow(db, ix, Delivery(cmd.id));
    var g := db.core.assignments[a];
    match cmd.action
    case ArriveAtPickup => DrivenIs(db, ix, a, AtPickup, ToPickup, g.custody, Arrive, DriverArrived);
    case StartJob =>
      DrivenIs(db, ix, a, InProgress, OnTrip, if g.custody.None? then Some(cmd.confirmation) else g.custody, Start, Started);
    case CompleteJob =>
  }

  lemma ParcelRow(db: Db, ix: Index, j: Job)
    requires Sound(db, ix) && j in db.core.jobs && j.Delivery?
    ensures db.core.jobs[j].ride.Parcel?
  {
    assert JobOk(db.core, ix, j);
  }
}
