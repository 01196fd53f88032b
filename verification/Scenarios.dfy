/** Two concrete runs: the states that the general theorems speak of do occur. */
module Scenarios {
  import opened Basics
  import opened Fare
  import opened Tables
  import opened Events
  import opened Steps
  import Sorting
  import R = Ranking
  import opened Queries
  import opened Commands
  import opened Retries
  import opened Runs
  import opened Idempotency
  import opened Rematching

  const FLAT := Rules("v1", "VND", "CAR", 500, 0, 0, 10_000, 10_000, 10_000)
  const RIDE := Metering(1, 1, 10_000)
  const NEAR := R.Candidate(1, 0.0, 0.0, true, false)
  const OTHER := R.Candidate(2, 0.0, 0.0, true, false)

  lemma FlatPrice()
    ensures Price(RIDE, FLAT).Some?
    ensures Price(RIDE, FLAT).value.total == 500 && Price(RIDE, FLAT).value.appliedSurgeBps == 10_000
  {
    assert !Blank("v1") by { assert !IsSpace("v1"[0]); }
    assert !Blank("VND") by { assert !IsSpace("VND"[0]); }
    assert !Blank("CAR") by { assert !IsSpace("CAR"[0]); }
    hide Blank;
  }

  lemma Extends(from: Db, db: Db, cmd: Command, db': Db)
    requires Inv(from) && Leads(from, db) && (Joined(db) ==> Apply(db, cmd).0 == db')
    ensures Leads(from, db')
  {
    hide Inv, Leads, Joined, Apply;
    LeadsOn(from, db, cmd);
    InvJoined(db);
  }

  // ---- Drivers 1 and 2 are on duty

  function GoneOn(db: Db, d: Id): Db {
    db.(core := db.core.(work := db.core.work[d := Work(Available, None, None, 0)]))
  }

  lemma ReachGoneOn(from: Db, db: Db, d: Id)
    requires Inv(from) && Leads(from, db) && d !in db.core.work
    ensures Leads(from, GoneOn(db, d))
  {
    hide Inv, Leads, Joined;
    Extends(from, db, SetWork(d, true, true), GoneOn(db, d));
  }

  function OnDuty(): Db {
    GoneOn(GoneOn(EmptyDb(), 1), 2)
  }

  lemma ReachOnDuty()
    ensures Inv(EmptyDb()) && Leads(EmptyDb(), OnDuty())
  {
    EmptyHolds();
    LeadsSelf(EmptyDb());
    hide Inv, Leads;
    ReachGoneOn(EmptyDb(), EmptyDb(), 1);
    ReachGoneOn(EmptyDb(), GoneOn(EmptyDb(), 1), 2);
  }

  // ---- A Customer is quoted and books

  function Quoted(db: Db, customer: Id): Db {
    db.(core := db.core.(nextId := db.core.nextId + 1),
        books := db.books.(quotes := db.books.quotes[db.core.nextId := Quote(customer, RIDE, FLAT, 10_000, 500, QuoteActive, 1)]))
  }

  lemma ReachQuoted(from: Db, db: Db, customer: Id)
    requires Inv(from) && Leads(from, db)
    ensures Leads(from, Quoted(db, customer))
  {
    FlatPrice();
    hide Inv, Leads, Joined, Price;
    Extends(from, db, IssueQuote(customer, RIDE, FLAT, 1), Quoted(db, customer));
  }

  function Booking(customer: Id, quote: Id): Command {
    CreateTrip(customer, quote, quote, 0, 0)
  }

  /** The quote issued last is booked. */
  function Booked(db: Db, customer: Id): Db {
    if db.core.nextId == 0 || db.core.nextId - 1 !in db.books.quotes then db else
    var quote := db.core.nextId - 1;
    var db' := Book(db, customer, quote);
    db'.(receipts := db.receipts[ReceiptKey(customer, CreateTripOp, quote) :=
      Receipt(0, JobResponse(Trip(db.core.nextId), Requested, 0, None, None, None))])
  }

  lemma BookingBooks(db: Db, customer: Id)
    requires Joined(Quoted(db, customer)) && ReceiptKey(customer, CreateTripOp, db.core.nextId) !in db.receipts
    requires forall j | j in db.core.jobs :: db.core.jobs[j].customer != customer
    ensures Apply(Quoted(db, customer), Booking(customer, db.core.nextId)).0 == Booked(Quoted(db, customer), customer)
  {
    hide Joined, AddJob, Begin;
    assert !HasActiveTrip(Quoted(db, customer).core, customer);
  }

  lemma ReachBooked(from: Db, db: Db, customer: Id)
    requires Inv(from) && Leads(from, db) && ReceiptKey(customer, CreateTripOp, db.core.nextId) !in db.receipts
    requires forall j | j in db.core.jobs :: db.core.jobs[j].customer != customer
    ensures Leads(from, Booked(Quoted(db, customer), customer))
  {
    hide Inv, Leads, Joined, Book, Apply;
    ReachQuoted(from, db, customer);
    if Joined(Quoted(db, customer)) { BookingBooks(db, customer); }
    Extends(from, Quoted(db, customer), Booking(customer, db.core.nextId), Booked(Quoted(db, customer), customer));
  }

  // ---- The match is started and Driver 1 is asked

  function Starting(customer: Id, id: Id): Command {
    StartTrip(customer, id, id, 0, 0, [NEAR])
  }

  /** Driver 1 may be asked for a Trip nobody has been asked for. */
  ghost predicate Askable(c: Core, j: Job) {
    && 1 in c.work && c.work[1].state.Available?
    && (forall r | r in c.reservations :: c.reservations[r].driver == 1 ==> !c.reservations[r].status.Active?)
    && (forall o | o in c.offers :: c.offers[o].job != j)
  }

  lemma NearIsChosen(db: Db, j: Job)
    requires Known(db, j) && j.Trip? && Askable(db.core, j)
    requires Untold(db.journal.outbox[j], db.core.jobs[j].version, OfferCreated)
    ensures NextDriver(db, j, None, [NEAR], OfferCreated) == Chosen(1) && MaxAttempt(db.core, j) == 0
  {
    MaxIs(db.core, j, 0);
    hide MaxAttempt, Untold;
    assert [NEAR][0] == NEAR && [NEAR][1..] == [];
    assert Candidates(db.core, j, None, [NEAR]) == [NEAR];
    assert R.Fresh([NEAR], 15.0) == [NEAR];
    assert Sorting.Sorted([NEAR], R.NotAfter) == [NEAR];
    assert FirstClaim([NEAR]) == Some(1);
  }

  function Asking(db: Db, customer: Id, id: Id): Db
    requires Known(db, Trip(id)) && 1 in db.core.work
  {
    var j := Trip(id);
    var db1 := BeginMatching(db, j, None);
    var db2 := OfferNext(db1, j, 1, 0, 1, OfferCreated);
    db2.(receipts := db.receipts[ReceiptKey(customer, StartTripOp, id) :=
      Receipt(0, MatchResponse(j, Matching, db1.core.jobs[j].version,
                               Some(OfferView(db.core.nextId + 1, j, 1, 1, Pending, OFFER_TTL_MS, Matching, db1.core.jobs[j].version))))])
  }

  lemma BegunAskable(db: Db, j: Job)
    requires Known(db, j) && Askable(db.core, j)
    requires Untold(db.journal.outbox[j], db.core.jobs[j].version + 1, OfferCreated)
    ensures var db1 := BeginMatching(db, j, None);
            && Known(db1, j) && Askable(db1.core, j) && PendingOffer(db1.core, j).None?
            && Untold(db1.journal.outbox[j], db1.core.jobs[j].version, OfferCreated)
            && db1.core.jobs[j].state.Matching? && db1.core.nextId == db.core.nextId && db1.receipts == db.receipts
  {
    hide Untold, PendingOffer;
    var db1 := BeginMatching(db, j, None);
    UnaskedPending(db1.core, j);
    var e := Event(MatchingStarted, db.core.jobs[j].version + 1, Some(Matching), {});
    assert db1.journal.outbox[j] == db.journal.outbox[j] + [e];
    UntoldThen(db.journal.outbox[j], e, db.core.jobs[j].version + 1, OfferCreated);
  }

  lemma StartAsks(db: Db, customer: Id, id: Id)
    requires Joined(db) && Known(db, Trip(id)) && Askable(db.core, Trip(id)) && ReceiptKey(customer, StartTripOp, id) !in db.receipts
    requires db.core.jobs[Trip(id)].state.Requested? && db.core.jobs[Trip(id)].customer == customer
    requires Untold(db.journal.outbox[Trip(id)], db.core.jobs[Trip(id)].version + 1, OfferCreated)
    ensures Apply(db, Starting(customer, id)).0 == Asking(db, customer, id)
  {
    hide Joined, NextDriver, MaxAttempt, Untold, PendingOffer, BeginMatching;
    BegunAskable(db, Trip(id));
    NearIsChosen(BeginMatching(db, Trip(id), None), Trip(id));
  }

  /** The database once Driver 1 is asked for the Trip. */
  function Asked(db: Db, customer: Id): Db
    requires 1 in db.core.work
  {
    Asking(Booked(Quoted(db, customer), customer), customer, db.core.nextId + 1)
  }

  lemma BookedFacts(db: Db, customer: Id)
    requires Askable(db.core, Trip(db.core.nextId + 1))
    ensures var id, db1 := db.core.nextId + 1, Booked(Quoted(db, customer), customer);
            && Known(db1, Trip(id)) && Askable(db1.core, Trip(id))
            && db1.core.jobs[Trip(id)].state.Requested? && db1.core.jobs[Trip(id)].customer == customer
            && Untold(db1.journal.outbox[Trip(id)], db1.core.jobs[Trip(id)].version + 1, OfferCreated)
            && (ReceiptKey(customer, StartTripOp, id) !in db.receipts ==> ReceiptKey(customer, StartTripOp, id) !in db1.receipts)
  {
    var id, db1 := db.core.nextId + 1, Booked(Quoted(db, customer), customer);
    assert db1.journal.outbox[Trip(id)] == [Event(CreatedEvent, 0, Some(Requested), {})];
  }

  lemma ReachAsking(from: Db, db: Db, customer: Id, id: Id)
    requires Inv(from) && Leads(from, db)
    requires Known(db, Trip(id)) && Askable(db.core, Trip(id)) && ReceiptKey(customer, StartTripOp, id) !in db.receipts
    requires db.core.jobs[Trip(id)].state.Requested? && db.core.jobs[Trip(id)].customer == customer
    requires Untold(db.journal.outbox[Trip(id)], db.core.jobs[Trip(id)].version + 1, OfferCreated)
    requires 1 in db.core.work
    ensures Leads(from, Asking(db, customer, id))
  {
    hide Inv, Leads, Joined, Apply, Asking, Askable, Untold;
    if Joined(db) { StartAsks(db, customer, id); }
    Extends(from, db, Starting(customer, id), Asking(db, customer, id));
  }

  lemma ReachAsked(from: Db, db: Db, customer: Id)
    requires Inv(from) && Leads(from, db)
    requires ReceiptKey(customer, CreateTripOp, db.core.nextId) !in db.receipts
    requires ReceiptKey(customer, StartTripOp, db.core.nextId + 1) !in db.receipts
    requires forall j | j in db.core.jobs :: db.core.jobs[j].customer != customer
    requires Askable(db.core, Trip(db.core.nextId + 1))
    ensures Leads(from, Asked(db, customer))
  {
    hide Inv, Leads, Asking, Askable, Untold, Book;
    BookedFacts(db, customer);
    ReachBooked(from, db, customer);
    ReachAsking(from, Booked(Quoted(db, customer), customer), customer, db.core.nextId + 1);
  }

  // ---- Customer 10's Trip 1 is offered to Driver 1, who answers late

  function FirstAsked(): Db {
    Asked(OnDuty(), 10)
  }

  const LATE := AcceptTrip(1, 3, 7, 0, OFFER_TTL_MS)

  lemma ReachFirstAsked()
    ensures Inv(EmptyDb()) && Leads(EmptyDb(), FirstAsked()) && Inv(FirstAsked())
  {
    ReachOnDuty();
    hide Inv, Leads, Asked;
    ReachAsked(EmptyDb(), OnDuty(), 10);
    LeadsOn(EmptyDb(), FirstAsked(), LATE);
  }

  /** Driver 1 has a pending offer for Trip 1, which is at version 1. */
  lemma FirstAskedFacts()
    ensures var c := FirstAsked().core;
            && c.nextId == 4 && 3 in c.offers && 2 in c.work && c.work[2].state.Available?
            && c.offers[3] == Offer(Trip(1), 2, 1, 1, Pending, OFFER_TTL_MS, None, None)
            && Trip(1) in c.jobs && c.jobs[Trip(1)].version == 1 && c.jobs[Trip(1)].customer == 10
            && c.offers.Keys == {3} && c.reservations.Keys == {2} && c.jobs.Keys == {Trip(1)}
            && OfferRows(c, 3)
            && (forall k | k in FirstAsked().receipts :: k.actor == 10 && k.key <= 1)
  {
  }

  /** The offer has expired and Driver 1 is available; nothing else has changed. */
  function Lapsed(): Db
  {
    FirstAskedFacts();
    Expire(FirstAsked(), 3)
  }

  lemma AnsweredLate()
    ensures Inv(FirstAsked()) && LateAnswer(FirstAsked(), LATE) && Step(FirstAsked(), LATE) == Lapsed() && Inv(Lapsed())
  {
    hide Inv, FirstAsked, Execute, Lapsed, Joined;
    ReachFirstAsked();
    InvJoined(FirstAsked());
    LateHere();
    assert Apply(FirstAsked(), LATE) == (Lapsed(), Declined(OfferIsExpired));
    LateIff(FirstAsked(), LATE);
    hide Apply;
  }

  lemma LateHere()
    requires Joined(FirstAsked())
    ensures Execute(FirstAsked(), LATE) == (Lapsed(), Declined(OfferIsExpired)) && KeyOf(LATE).value !in FirstAsked().receipts
  {
    FirstAskedFacts();
    hide FirstAsked, Hire, Expire;
  }

  lemma LapsedFacts()
    ensures var c := Lapsed().core;
            && c.nextId == 4 && 2 in c.work && c.work[2].state.Available? && 1 in c.work && c.work[1].state.Available?
            && 3 in c.offers && c.offers[3].job == Trip(1) && c.offers[3].driver == 1 && c.offers[3].attempt == 1
            && c.offers.Keys == {3} && c.reservations.Keys == {2} && !c.reservations[2].status.Active?
            && c.jobs.Keys == {Trip(1)} && c.jobs[Trip(1)].version == 1 && c.jobs[Trip(1)].customer == 10
            && (forall k | k in Lapsed().receipts :: k.actor == 10 && k.key <= 1)
  {
    FirstAskedFacts();
    hide FirstAsked;
  }

  lemma OtherIsThere()
    ensures SomebodyToAsk(Lapsed().core, Trip(1), [OTHER]) && MaxAttempt(Lapsed().core, Trip(1)) == 1
  {
    LapsedFacts();
    hide Lapsed;
    var c := Lapsed().core;
    assert 3 in OffersOf(c, Trip(1)) && c.offers[3].attempt == 1;
    MaxIs(c, Trip(1), 1);
    hide MaxAttempt;
    assert [OTHER][0] == OTHER && [OTHER][1..] == [];
    assert Candidates(c, Trip(1), None, [OTHER]) == [OTHER];
    assert R.Fresh([OTHER], 15.0) == [OTHER];
    assert Sorting.Sorted([OTHER], R.NotAfter) == [OTHER];
    assert FirstClaim([OTHER]) == Some(2);
  }

  lemma LapsedUnasked()
    ensures Inv(Lapsed()) && Unasked(Lapsed().core, Trip(1))
  {
    hide Inv, FirstAsked, Lapsed, LateAnswer, Step, Unasked;
    AnsweredLate();
    FirstAskedFacts();
    LateAnswerUnasks(FirstAsked(), LATE);
  }

  /**
   * A reachable Trip that is matching with nobody being asked, and that cannot be matched again
   * although a Driver is available.
   */
  lemma StrandedTripOccurs()
    ensures Reachable(Lapsed()) && Inv(Lapsed())
    ensures Unasked(Lapsed().core, Trip(1)) && Lapsed().core.jobs[Trip(1)].version == 1
    ensures Answer(Lapsed(), StartTrip(10, 1, 99, 0, 0, [OTHER])) == Thrown(UniqueViolation)
  {
    hide Inv, FirstAsked, Lapsed, Leads, LateAnswer, Step, Unasked, SomebodyToAsk, MaxAttempt, Answer;
    AnsweredLate();
    LapsedUnasked();
    LapsedFacts();
    OtherIsThere();
    ReachFirstAsked();
    LeadsOn(EmptyDb(), FirstAsked(), LATE);
    RetryFailsIff(Lapsed(), StartTrip(10, 1, 99, 0, 0, [OTHER]));
  }

  // ---- Driver 1 reuses the key of the late answer

  function SecondAsked(): Db {
    LapsedFacts();
    Asked(Lapsed(), 11)
  }

  const AGAIN := AcceptTrip(1, 7, 7, 0, 0)

  lemma ReachSecondAsked()
    ensures Inv(Lapsed()) && Leads(Lapsed(), SecondAsked()) && Inv(SecondAsked())
  {
    hide Inv, Leads, Lapsed, Asked;
    AnsweredLate();
    LapsedFacts();
    LeadsSelf(Lapsed());
    ReachAsked(Lapsed(), Lapsed(), 11);
    LeadsOn(Lapsed(), SecondAsked(), AGAIN);
  }

  lemma SecondAskedFacts()
    ensures var c := SecondAsked().core;
            && 7 in c.offers && c.offers[7] == Offer(Trip(5), 6, 1, 1, Pending, OFFER_TTL_MS, None, None)
            && (forall k | k in SecondAsked().receipts :: k.actor == 10 || k.actor == 11)
  {
    LapsedFacts();
    hide Lapsed;
  }

  lemma AcceptedHere(db: Db)
    requires Joined(db) && 7 in db.core.offers
    requires db.core.offers[7] == Offer(Trip(5), 6, 1, 1, Pending, OFFER_TTL_MS, None, None)
    ensures Execute(db, AGAIN).1.Ok?
  {
    hide Hire, Expire;
  }

  lemma AnswersFresh(db: Db, cmd: Command)
    requires Inv(db) && Joined(db) && KeyOf(cmd).Some? && KeyOf(cmd).value !in db.receipts
    ensures Answer(db, cmd) == Execute(db, cmd).1
  {
    hide Inv, Joined, Execute;
  }

  /** Two executions under one key that both change the database: each key is not used once only. */
  lemma KeyUsedTwice()
    ensures Inv(FirstAsked()) && KeyOf(LATE) == KeyOf(AGAIN) && Step(FirstAsked(), LATE) != FirstAsked()
    ensures Inv(Step(FirstAsked(), LATE)) && Leads(Step(FirstAsked(), LATE), SecondAsked())
    ensures Inv(SecondAsked()) && Step(SecondAsked(), AGAIN) != SecondAsked()
  {
    hide Inv, Joined, FirstAsked, SecondAsked, Lapsed, Leads, Execute, Step;
    AnsweredLate();
    ReachSecondAsked();
    InvJoined(FirstAsked());
    InvJoined(SecondAsked());
    LateHere();
    SecondAskedFacts();
    AcceptedHere(SecondAsked());
    AnswersFresh(SecondAsked(), AGAIN);
    ChangesIff(FirstAsked(), LATE);
    ChangesIff(SecondAsked(), AGAIN);
  }
}
