/**
 * What every answered command leaves behind and answers, row by row, and what it does not touch.
 */
module Outcomes {
  import opened Basics
  import opened Fare
  import opened Tables
  import opened Events
  import opened Commitments
  import opened CommitmentSteps
  import opened Journals
  import opened Settlement
  import opened Steps
  import opened History
  import R = Ranking
  import opened Queries
  import opened Commands
  import opened CommandProofs
  import opened MatchingSafety
  import opened Retries
  import opened Runs
  import opened Repositories
  import opened Bookings
  import opened Idempotency
  import opened Guards
  import opened Searches
  import opened Accounts
  import Schema

  // ---- Rows

  /** A Driver without a commitment, one change on. */
  function Idle(w: Work): Work {
    Work(Available, None, None, w.version + 1)
  }

  /** A Driver bound to the aggregate, one change on. */
  function Bound(w: Work, j: Job, state: WorkState): Work {
    Work(state, if j.Trip? then Some(j.id) else None, if j.Delivery? then Some(j.id) else None, w.version + 1)
  }

  /** The aggregate one version on, with the one log row and the one event of the step. */
  function Stepped(
      db: Db, j: Job, to: State, act: Act, actor: Option<Id>, kind: EventKind, carried: Option<State>, drivers: set<Id>): Db
    requires Known(db, j)
  {
    var row := db.core.jobs[j];
    db.(core := db.core.(jobs := db.core.jobs[j := row.(state := to, version := row.version + 1)]),
        journal := Journal(
          db.journal.log[j := db.journal.log[j]
            + [Transition(act, actor, Some(row.state), to, Some(row.version), row.version + 1)]],
          db.journal.outbox[j := db.journal.outbox[j] + [Event(kind, row.version + 1, carried, drivers)]]))
  }

  /** A pending offer ended without acceptance: offer, reservation and Driver. */
  function Ended(db: Db, o: Id, status: OfferStatus, reservation: ReservationStatus): Db
    requires OfferRows(db.core, o)
  {
    var f, c := db.core.offers[o], db.core;
    db.(core := c.(offers := c.offers[o := Offer(f.job, f.reservation, f.driver, f.attempt, status, f.expiresAt, f.acceptedKey, f.acceptedAt)],
                   reservations := c.reservations[f.reservation := Reservation(f.job, f.driver, reservation, f.expiresAt)],
                   work := c.work[f.driver := Idle(c.work[f.driver])]))
  }

  /** A Driver asked for the aggregate, for twenty seconds; a Trip's outbox tells of it. */
  function AskedFor(db: Db, j: Job, d: Id, now: Time, attempt: nat, kind: EventKind): Db
    requires Known(db, j) && d in db.core.work
  {
    var c, id := db.core, db.core.nextId;
    db.(core := c.(nextId := id + 2,
                   reservations := c.reservations[id := Reservation(j, d, Active, now + 20_000)],
                   offers := c.offers[id + 1 := Offer(j, id, d, attempt, Pending, now + 20_000, None, None)],
                   work := c.work[d := Bound(c.work[d], j, Reserved)]),
        journal := if j.Trip?
                   then db.journal.(outbox := db.journal.outbox[j := db.journal.outbox[j]
                          + [Event(kind, c.jobs[j].version, None, {d})]])
                   else db.journal)
  }

  function GivenUp(db: Db, j: Job, act: Act, actor: Option<Id>): Db
    requires Known(db, j)
  {
    Stepped(db, j, NoDriverAvailable, act, actor, NoDriverEvent, Some(NoDriverAvailable), {})
  }

  /** A Driver hired: offer, reservation, Driver, a new assignment, and the aggregate on its way to the pickup. */
  function HiredFor(db: Db, o: Id, key: Id, now: Time): Db
    requires OfferRows(db.core, o) && Known(db, db.core.offers[o].job)
  {
    var f, c := db.core.offers[o], db.core;
    Stepped(db.(core := c.(
                  nextId := c.nextId + 1,
                  offers := c.offers[o := Offer(f.job, f.reservation, f.driver, f.attempt, Accepted, f.expiresAt, Some(key), Some(now))],
                  reservations := c.reservations[f.reservation := Reservation(f.job, f.driver, Committed, f.expiresAt)],
                  work := c.work[f.driver := Bound(c.work[f.driver], f.job, ToPickup)],
                  assignments := c.assignments[c.nextId := Assignment(f.job, o, f.driver, Working, None)])),
            f.job, DriverToPickup, AssignDriver, Some(f.driver), DriverAssigned, Some(DriverToPickup), {f.driver})
  }

  // ---- The events read so

  lemma EndedIs(db: Db, ix: Index, o: Id, status: OfferStatus, reservation: ReservationStatus)
    requires Sound(db, ix) && o in db.core.offers && db.core.offers[o].status.Pending?
    ensures OfferRows(db.core, o) && Drop(db, o, status, reservation) == Ended(db, o, status, reservation)
  {
    PendingFacts(db.core, ix, o);
    hide Sound, Linked;
  }

  lemma SteppedIs(
      db: Db, j: Job, to: State, act: Act, actor: Option<Id>, kind: EventKind, carried: Option<State>, drivers: set<Id>)
    requires Known(db, j)
    ensures Advance(db, j, to, act, actor, kind, carried, drivers) == Stepped(db, j, to, act, actor, kind, carried, drivers)
  {
  }

  lemma AskedForIs(db: Db, ix: Index, j: Job, d: Id, now: Time, attempt: nat, kind: EventKind)
    requires Sound(db, ix) && Known(db, j) && d in db.core.work && db.core.work[d].state.Available?
    ensures OfferNext(db, j, d, now, attempt, kind) == AskedFor(db, j, d, now, attempt, kind)
  {
    assert WorkOk(db.core, ix, d);
    hide Sound, Linked;
  }

  lemma HiredForIs(db: Db, ix: Index, o: Id, key: Id, now: Time)
    requires Sound(db, ix) && o in db.core.offers && db.core.offers[o].status.Pending?
    ensures OfferRows(db.core, o) && Known(db, db.core.offers[o].job)
    ensures Hire(db, o, key, now) == HiredFor(db, o, key, now)
  {
    AllKnown(db, ix);
    PendingFacts(db.core, ix, o);
    hide Sound, Linked;
  }

  // ---- Answers

  /** The tables but for the receipts. */
  predicate Same(db: Db, db': Db) {
    db.core == db'.core && db.journal == db'.journal && db.books == db'.books
  }

  /** The command is executed: it has no key, or its key is unused. */
  predicate Unused(db: Db, cmd: Command) {
    KeyOf(cmd).None? || KeyOf(cmd).value !in db.receipts
  }

  lemma Executed(db: Db, cmd: Command) returns (ix: Index)
    requires Inv(db) && Unused(db, cmd)
    ensures Sound(db, ix) && Joined(db) && Asked(db)
    ensures Answer(db, cmd) == Execute(db, cmd).1 && Same(Step(db, cmd), Execute(db, cmd).0)
  {
    hide Inv, Holds, Sound, Joined, Execute, Waiting, Asked;
    ix := Witness(db);
  }

  /** The ids in use lie below the next one. */
  lemma IdsBelow(db: Db)
    requires Inv(db)
    ensures IdsOk(db.core) && forall q | q in db.books.quotes :: q < db.core.nextId
  {
    hide Inv;
    var ix := Witness(db);
  }

  // ---- Work states

  /**
   * A Driver goes on duty only if eligible, and nobody does either with a commitment; afterwards the Driver
   * is as asked, without a commitment, and nothing else has changed. A refusal changes nothing.
   */
  lemma WorkOutcome(db: Db, cmd: Command)
    requires Inv(db) && cmd.SetWork?
    ensures Answer(db, cmd).Ok? <==>
              && (cmd.available ==> cmd.eligible)
              && (cmd.driver in db.core.work ==> db.core.work[cmd.driver].state in {Offline, Available})
    ensures var w := Work(if cmd.available then Available else Offline, None, None,
                          if cmd.driver in db.core.work then db.core.work[cmd.driver].version + 1 else 0);
            if Answer(db, cmd).Ok?
            then Step(db, cmd) == db.(core := db.core.(work := db.core.work[cmd.driver := w]))
                 && Answer(db, cmd) == Ok(WorkResponse(cmd.driver, w.state, w.version))
            else Step(db, cmd) == db
  {
    hide Inv, Sound, Joined, Asked;
    var ix := Executed(db, cmd);
    if cmd.driver in db.core.work && db.core.work[cmd.driver].state in {Offline, Available} { IdleRow(db, ix, cmd.driver); }
    ReceiptsStay(db, cmd);
  }

  lemma IdleRow(db: Db, ix: Index, d: Id)
    requires Sound(db, ix) && d in db.core.work && db.core.work[d].state in {Offline, Available}
    ensures db.core.work[d].trip.None? && db.core.work[d].delivery.None?
  {
    assert WorkOk(db.core, ix, d);
  }

  lemma ReceiptsStay(db: Db, cmd: Command)
    requires Inv(db) && KeyOf(cmd).None?
    ensures Joined(db) && Step(db, cmd) == Execute(db, cmd).0
  {
    hide Inv, Joined, Execute;
    InvJoined(db);
  }

  // ---- Payments

  /**
   * An answered capture adds one attempt, of the given status and for the Trip's final fare, numbered after
   * the others, and answers it; nothing else changes.
   */
  lemma CaptureOutcome(db: Db, cmd: Command)
    requires Inv(db) && cmd.Capture? && Unused(db, cmd) && Answer(db, cmd).Ok?
    ensures Trip(cmd.id) in db.core.jobs
    ensures var row := db.core.jobs[Trip(cmd.id)];
            row.customer == cmd.customer && row.state.Completed? && row.ride.Ride? && row.ride.finalFare.Some?
    ensures var before := if cmd.id in db.books.payments then db.books.payments[cmd.id] else [];
            var attempt := Attempt(|before| + 1, db.core.jobs[Trip(cmd.id)].ride.finalFare.value, cmd.status);
            && (before != [] ==> Last(before).status.Failed?)
            && Step(db, cmd).core == db.core && Step(db, cmd).journal == db.journal
            && Step(db, cmd).books == db.books.(payments := db.books.payments[cmd.id := before + [attempt]])
            && Answer(db, cmd) == Ok(PaymentResponse(cmd.id, attempt))
  {
    hide Inv, Sound, Asked, Joined, AttemptsOk;
    var ix := Executed(db, cmd);
    if Trip(cmd.id) in db.core.jobs && db.core.jobs[Trip(cmd.id)].state.Completed? { Billed(db, ix, Trip(cmd.id)); }
    if cmd.id in db.books.payments {
      Attempts(db, cmd.id);
      LastNumber(db.books.payments[cmd.id], db.core.jobs[Trip(cmd.id)].ride.finalFare.value);
    }
  }

  lemma LastNumber(attempts: seq<Attempt>, fare: int)
    requires AttemptsOk(attempts, fare)
    ensures attempts != [] ==> Last(attempts).number == |attempts|
  {
  }

  function AttemptsOf(b: Books, t: Id): seq<Attempt> {
    if t in b.payments then b.payments[t] else []
  }

  /** A Trip whose capture was answered as successful, pending or unknown is never charged again. */
  lemma CapturedOnce(db: Db, cmd: Command, cmds: seq<Command>)
    requires Inv(db) && cmd.Capture? && Unused(db, cmd) && Answer(db, cmd).Ok? && !cmd.status.Failed?
    ensures AttemptsOf(Step(db, cmd).books, cmd.id) != [] && Last(AttemptsOf(Step(db, cmd).books, cmd.id)).status == cmd.status
    ensures AttemptsOf(After(Step(db, cmd), cmds).books, cmd.id) == AttemptsOf(Step(db, cmd).books, cmd.id)
  {
    hide Inv, Step, Answer, After;
    CaptureOutcome(db, cmd);
    ChargedForever(Step(db, cmd), cmds, cmd.id);
  }

  // ---- Quotes and new aggregates

  /** A quote is given exactly when the estimate has a price; it is stored with that price, and is active. */
  lemma QuoteOutcome(db: Db, cmd: Command)
    requires Inv(db) && cmd.IssueQuote?
    ensures Answer(db, cmd).Ok? <==> Price(cmd.estimate, cmd.rules).Some?
    ensures if Answer(db, cmd).Ok? then
              var p, id := Price(cmd.estimate, cmd.rules).value, db.core.nextId;
              && Answer(db, cmd) == Ok(QuoteResponse(id, p.total))
              && Step(db, cmd) == db.(
                   core := db.core.(nextId := id + 1),
                   books := db.books.(quotes := db.books.quotes[id :=
                     Quote(cmd.customer, cmd.estimate, cmd.rules, p.appliedSurgeBps, p.total, QuoteActive, cmd.expiresAt)]))
            else Step(db, cmd) == db
  {
    hide Inv, Joined, Price;
    ReceiptsStay(db, cmd);
  }

  /** A new aggregate at version 0, with its first log row and event. */
  function Opened(db: Db, j: Job, customer: Id, ride: Ride): Db {
    db.(core := db.core.(jobs := db.core.jobs[j := JobRow(customer, Requested, 0, ride)], nextId := db.core.nextId + 1),
        journal := Journal(
          db.journal.log[j := [Transition(Create, Some(customer), None, Requested, None, 0)]],
          db.journal.outbox[j := [Event(CreatedEvent, 0, Some(Requested), {})]]))
  }

  /** A Trip takes over the terms of its quote, which is consumed. */
  lemma CreateTripOutcome(db: Db, cmd: Command)
    requires Inv(db) && cmd.CreateTrip? && Unused(db, cmd) && Answer(db, cmd).Ok?
    ensures cmd.quote in db.books.quotes
    ensures var q, j := db.books.quotes[cmd.quote], Trip(db.core.nextId);
            && Answer(db, cmd) == Ok(JobResponse(j, Requested, 0, None, None, None))
            && Same(Step(db, cmd),
                    Opened(db, j, cmd.customer, Ride(cmd.quote, q.rules, q.surge, q.total, None, None))
                      .(books := db.books.(quotes := db.books.quotes[cmd.quote :=
                          Quote(q.customer, q.estimate, q.rules, q.surge, q.total, Consumed, q.expiresAt)])))
  {
    hide Inv, Sound, Joined, Asked, HasActiveTrip;
    var ix := Executed(db, cmd);
  }

  lemma CreateDeliveryOutcome(db: Db, cmd: Command)
    requires Inv(db) && cmd.CreateDelivery? && Unused(db, cmd)
    ensures var j := Delivery(db.core.nextId);
            && Answer(db, cmd) == Ok(JobResponse(j, Requested, 0, None, None, None))
            && Same(Step(db, cmd), Opened(db, j, cmd.customer, Parcel))
  {
    hide Inv, Sound, Joined, Asked;
    var ix := Executed(db, cmd);
  }

  // ---- Answers to offers

  function Viewed(f: Offer, o: Id, status: OfferStatus, state: State, version: nat): OfferView {
    OfferView(o, f.job, f.driver, f.attempt, status, f.expiresAt, state, version)
  }

  /** An accepted Trip offer: its Driver is hired. */
  lemma AcceptTripOutcome(db: Db, cmd: Command)
    requires Inv(db) && cmd.AcceptTrip? && Unused(db, cmd) && Answer(db, cmd).Ok?
    ensures OfferRows(db.core, cmd.offer) && Known(db, db.core.offers[cmd.offer].job)
    ensures var f := db.core.offers[cmd.offer];
            && f.job.Trip? && f.driver == cmd.driver && f.status.Pending? && cmd.now < f.expiresAt
            && Same(Step(db, cmd), HiredFor(db, cmd.offer, cmd.key, cmd.now))
            && Answer(db, cmd) == Ok(OfferResponse(Viewed(f, cmd.offer, Accepted, DriverToPickup, db.core.jobs[f.job].version + 1)))
  {
    hide Inv, Sound, Asked, Joined, Hire, Expire;
    var ix := Executed(db, cmd);
    AcceptedHow(db, ix, cmd);
    hide Execute;
  }

  lemma AcceptedHow(db: Db, ix: Index, cmd: Command)
    requires Sound(db, ix) && Joined(db) && cmd.AcceptTrip? && Execute(db, cmd).1.Ok?
    ensures OfferRows(db.core, cmd.offer) && Known(db, db.core.offers[cmd.offer].job)
    ensures var f := db.core.offers[cmd.offer];
            && f.job.Trip? && f.driver == cmd.driver && f.status.Pending? && cmd.now < f.expiresAt
            && Execute(db, cmd).0 == HiredFor(db, cmd.offer, cmd.key, cmd.now)
            && Execute(db, cmd).1 ==
                 Ok(OfferResponse(Viewed(f, cmd.offer, Accepted, DriverToPickup, db.core.jobs[f.job].version + 1)))
  {
    hide Sound, Joined, Expire, Hire;
    HiredForIs(db, ix, cmd.offer, cmd.key, cmd.now);
  }

  /** An answer that comes too late ends its offer and nothing else. */
  lemma LateOutcome(db: Db, cmd: Command)
    requires Inv(db) && LateAnswer(db, cmd)
    ensures OfferRows(db.core, cmd.offer) && Same(Step(db, cmd), Ended(db, cmd.offer, Expired, Lapsed))
    ensures Answer(db, cmd) == Declined(OfferIsExpired)
  {
    hide Inv, Sound, Asked, Joined, Hire, Refuse, Search, NextDriver, Drop;
    var ix := Executed(db, cmd);
    LateIff(db, cmd);
    EndedIs(db, ix, cmd.offer, Expired, Lapsed);
  }

  // ---- Searches

  /** The search for a Trip's Driver ends with the best row's Driver asked, or, with nobody to ask, given up. */
  ghost predicate SearchEnds(
      db: Db, db1: Db, db': Db, j: Job, excluded: Option<Id>, now: Time, found: seq<R.Candidate>, kind: EventKind,
      act: Act, actor: Option<Id>)
    requires Known(db1, j)
  {
    || (exists x :: Best(db.core, j, excluded, found, x) && AsksFor(db, db1, db', j, x.driver, now, kind))
    || ((MaxAttempt(db.core, j) >= 3 || NoneMayBeAsked(db.core, j, excluded, found)) && Same(db', GivenUp(db1, j, act, actor)))
  }

  ghost predicate AsksFor(db: Db, db1: Db, db': Db, j: Job, d: Id, now: Time, kind: EventKind)
    requires Known(db1, j)
  {
    && MaxAttempt(db.core, j) < 3 && d in db1.core.work
    && Same(db', AskedFor(db1, j, d, now, MaxAttempt(db.core, j) + 1, kind))
  }

  /** A search finds in c' what it would have found in c. */
  ghost predicate Alike(c: Core, c': Core, j: Job, excluded: Option<Id>) {
    MaxAttempt(c, j) == MaxAttempt(c', j) && forall d :: Free(c, j, excluded, d) <==> Free(c', j, excluded, d)
  }

  lemma BestAlike(c: Core, c': Core, j: Job, excluded: Option<Id>, found: seq<R.Candidate>, x: R.Candidate)
    requires Alike(c, c', j, excluded)
    ensures Best(c', j, excluded, found, x) ==> Best(c, j, excluded, found, x)
    ensures Best(c', j, excluded, found, x) ==> x.driver in c'.work && c'.work[x.driver].state.Available?
    ensures NoneMayBeAsked(c', j, excluded, found) ==> NoneMayBeAsked(c, j, excluded, found)
  {
    hide MaxAttempt, NoWorse;
    if Best(c', j, excluded, found, x) {
      hide Free;
      assert MayBeAsked(c, j, excluded, x);
      forall y | y in found && MayBeAsked(c, j, excluded, y) ensures NoWorse(x, y) { assert MayBeAsked(c', j, excluded, y); }
    }
  }

  lemma SearchEndsSo(
      db: Db, db1: Db, ix: Index, j: Job, excluded: Option<Id>, now: Time, found: seq<R.Candidate>, kind: EventKind,
      act: Act, actor: Option<Id>)
    requires Searching(db1, ix, j) && j.Trip? && Alike(db.core, db1.core, j, excluded)
    requires Search(db1, j, excluded, now, found, kind, act, actor).Some?
    ensures Known(db1, j)
    ensures SearchEnds(db, db1, Search(db1, j, excluded, now, found, kind, act, actor).value.0, j, excluded, now, found, kind, act, actor)
  {
    hide Sound, HasPending, NextDriver, SearchEnds;
    var next := NextDriver(db1, j, excluded, found, kind);
    if next.Nobody? {
      GivesUpSo(db, db1, j, excluded, now, found, kind, act, actor);
    } else {
      AsksSo(db, db1, ix, j, excluded, now, found, kind, act, actor);
    }
  }

  lemma GivesUpSo(
      db: Db, db1: Db, j: Job, excluded: Option<Id>, now: Time, found: seq<R.Candidate>, kind: EventKind, act: Act,
      actor: Option<Id>)
    requires Known(db1, j) && j.Trip? && Alike(db.core, db1.core, j, excluded)
    requires NextDriver(db1, j, excluded, found, kind).Nobody?
    ensures SearchEnds(db, db1, Exhaust(db1, j, act, actor), j, excluded, now, found, kind, act, actor)
  {
    hide MaxAttempt, NextDriver, Best, NoneMayBeAsked, Alike, Advance, Stepped, AsksFor;
    NobodyLeft(db, db1, j, excluded, found, kind);
    SteppedIs(db1, j, NoDriverAvailable, act, actor, NoDriverEvent, Some(NoDriverAvailable), {});
  }

  lemma NobodyLeft(db: Db, db1: Db, j: Job, excluded: Option<Id>, found: seq<R.Candidate>, kind: EventKind)
    requires Known(db1, j) && j.Trip? && Alike(db.core, db1.core, j, excluded)
    requires NextDriver(db1, j, excluded, found, kind).Nobody?
    ensures MaxAttempt(db.core, j) >= 3 || NoneMayBeAsked(db.core, j, excluded, found)
  {
    hide MaxAttempt, NextDriver, NoneMayBeAsked, Alike, Best;
    SearchChooses(db1, j, excluded, found, kind);
    AlikeCount(db.core, db1.core, j, excluded);
    if NoneMayBeAsked(db1.core, j, excluded, found) { NoneAlike(db.core, db1.core, j, excluded, found); }
  }

  lemma AsksSo(
      db: Db, db1: Db, ix: Index, j: Job, excluded: Option<Id>, now: Time, found: seq<R.Candidate>, kind: EventKind,
      act: Act, actor: Option<Id>)
    requires Sound(db1, ix) && Known(db1, j) && j.Trip? && Alike(db.core, db1.core, j, excluded)
    requires NextDriver(db1, j, excluded, found, kind).Chosen?
    ensures var d := NextDriver(db1, j, excluded, found, kind).driver;
            d in db1.core.work
            && SearchEnds(db, db1, OfferNext(db1, j, d, now, MaxAttempt(db1.core, j) + 1, kind), j, excluded, now, found, kind, act, actor)
  {
    hide Sound, MaxAttempt, NextDriver, Best, NoneMayBeAsked, Alike, OfferNext, AskedFor, GivenUp;
    SearchChooses(db1, j, excluded, found, kind);
    AlikeCount(db.core, db1.core, j, excluded);
    var d := NextDriver(db1, j, excluded, found, kind).driver;
    var x :| Best(db1.core, j, excluded, found, x) && x.driver == d;
    BestAlike(db.core, db1.core, j, excluded, found, x);
    AskedForIs(db1, ix, j, d, now, MaxAttempt(db1.core, j) + 1, kind);
    assert AsksFor(db, db1, OfferNext(db1, j, d, now, MaxAttempt(db1.core, j) + 1, kind), j, x.driver, now, kind);
  }

  lemma AlikeCount(c: Core, c': Core, j: Job, excluded: Option<Id>)
    requires Alike(c, c', j, excluded)
    ensures MaxAttempt(c, j) == MaxAttempt(c', j)
  {
  }

  lemma NoneAlike(c: Core, c': Core, j: Job, excluded: Option<Id>, found: seq<R.Candidate>)
    requires Alike(c, c', j, excluded) && NoneMayBeAsked(c', j, excluded, found)
    ensures NoneMayBeAsked(c, j, excluded, found)
  {
    hide MaxAttempt, Free;
  }

  /** Ending a Driver's offer, and a step of the aggregate, change nothing for a search that leaves the Driver out. */
  lemma EndedAlike(db: Db, ix: Index, o: Id, status: OfferStatus, reservation: ReservationStatus, db1: Db)
    requires Sound(db, ix) && o in db.core.offers && db.core.offers[o].status.Pending? && db.core.offers[o].job.Trip?
    requires OfferRows(db.core, o)
    requires var c := Ended(db, o, status, reservation).core;
             db1.core.offers == c.offers && db1.core.reservations == c.reservations && db1.core.work == c.work
    ensures Alike(db.core, db1.core, db.core.offers[o].job, Some(db.core.offers[o].driver))
  {
    hide Linked, Logged, Settled, MaxAttempt;
    PendingFacts(db.core, ix, o);
    var f, c' := db.core.offers[o], db1.core;
    SameCount(db.core, c', f.job);
    forall d ensures Free(db.core, f.job, Some(f.driver), d) <==> Free(c', f.job, Some(f.driver), d) {
      if d != f.driver { FreeAlike(db.core, c', f.job, Some(f.driver), d); }
    }
  }

  lemma FreeAlike(c: Core, c': Core, j: Job, excluded: Option<Id>, d: Id)
    requires j.Trip? && (d in c.work <==> d in c'.work) && (d in c.work ==> c.work[d] == c'.work[d])
    requires c.reservations.Keys == c'.reservations.Keys && c.offers.Keys == c'.offers.Keys
    requires forall r | r in c.reservations && (c.reservations[r].driver == d || c'.reservations[r].driver == d) ::
               c.reservations[r] == c'.reservations[r]
    requires forall o | o in c.offers :: c.offers[o].job == c'.offers[o].job && c.offers[o].driver == c'.offers[o].driver
    ensures Free(c, j, excluded, d) <==> Free(c', j, excluded, d)
  {
  }

  lemma SameAlike(c: Core, c': Core, j: Job, excluded: Option<Id>)
    requires j.Trip? && c'.offers == c.offers && c'.reservations == c.reservations && c'.work == c.work
    ensures Alike(c, c', j, excluded)
  {
    hide MaxAttempt;
    SameCount(c, c', j);
    forall d ensures Free(c, j, excluded, d) <==> Free(c', j, excluded, d) { FreeAlike(c, c', j, excluded, d); }
  }

  // ---- Rejections and sweeps

  /** The Trip after a rejection, before the next Driver is searched for. */
  function AfterRejection(db: Db, o: Id): (db1: Db)
    requires OfferRows(db.core, o) && Known(db, db.core.offers[o].job)
    ensures Known(db1, db.core.offers[o].job)
  {
    var d := db.core.offers[o].driver;
    Stepped(Ended(db, o, Rejected, Released), db.core.offers[o].job, Matching, Act.RejectOffer, Some(d), OfferRejected, None, {d})
  }

  /** The Trip after a sweep, before the next Driver is searched for. */
  function AfterExpiry(db: Db, o: Id): (db1: Db)
    requires OfferRows(db.core, o) && Known(db, db.core.offers[o].job)
    ensures Known(db1, db.core.offers[o].job)
  {
    var d := db.core.offers[o].driver;
    Stepped(Ended(db, o, Expired, Lapsed), db.core.offers[o].job, Matching, Act.ExpireOffer, None, OfferExpired, None, {d})
  }

  lemma RejectionIs(db: Db, ix: Index, o: Id)
    requires Sound(db, ix) && o in db.core.offers && db.core.offers[o].status.Pending? && db.core.offers[o].job.Trip?
    ensures OfferRows(db.core, o) && Known(db, db.core.offers[o].job)
    ensures Refuse(db, o) == AfterRejection(db, o) && Lapse(db, o) == AfterExpiry(db, o)
    ensures Alike(db.core, AfterRejection(db, o).core, db.core.offers[o].job, Some(db.core.offers[o].driver))
    ensures Alike(db.core, AfterExpiry(db, o).core, db.core.offers[o].job, Some(db.core.offers[o].driver))
  {
    hide Sound, Drop, Ended, Alike, Advance, Stepped;
    PendingRows(db, ix, o);
    var f, d := db.core.offers[o], db.core.offers[o].driver;
    EndedIs(db, ix, o, Rejected, Released);
    EndedIs(db, ix, o, Expired, Lapsed);
    EndedKnown(db, o);
    SteppedIs(Ended(db, o, Rejected, Released), f.job, Matching, Act.RejectOffer, Some(d), OfferRejected, None, {d});
    SteppedIs(Ended(db, o, Expired, Lapsed), f.job, Matching, Act.ExpireOffer, None, OfferExpired, None, {d});
    StepRows(Ended(db, o, Rejected, Released), f.job, Matching, Act.RejectOffer, Some(d), OfferRejected, None, {d});
    StepRows(Ended(db, o, Expired, Lapsed), f.job, Matching, Act.ExpireOffer, None, OfferExpired, None, {d});
    EndedAlike(db, ix, o, Rejected, Released, AfterRejection(db, o));
    EndedAlike(db, ix, o, Expired, Lapsed, AfterExpiry(db, o));
  }

  lemma EndedKnown(db: Db, o: Id)
    requires OfferRows(db.core, o) && Known(db, db.core.offers[o].job)
    ensures Known(Ended(db, o, Rejected, Released), db.core.offers[o].job)
    ensures Known(Ended(db, o, Expired, Lapsed), db.core.offers[o].job)
  {
  }

  lemma StepRows(
      db: Db, j: Job, to: State, act: Act, actor: Option<Id>, kind: EventKind, carried: Option<State>, drivers: set<Id>)
    requires Known(db, j)
    ensures var c := Stepped(db, j, to, act, actor, kind, carried, drivers).core;
            c.offers == db.core.offers && c.reservations == db.core.reservations && c.work == db.core.work
  {
  }

  /**
   * A rejection in time ends its offer, moves the Trip one version on, and ends with the best of the other
   * Drivers asked, or the Trip given up.
   */
  lemma RejectOutcome(db: Db, cmd: Command)
    requires Inv(db) && cmd.RejectTrip? && Unused(db, cmd) && Answer(db, cmd).Ok?
    ensures OfferRows(db.core, cmd.offer) && Known(db, db.core.offers[cmd.offer].job)
    ensures var f := db.core.offers[cmd.offer];
            && f.job.Trip? && f.driver == cmd.driver && f.status.Pending? && cmd.now < f.expiresAt
            && SearchEnds(db, AfterRejection(db, cmd.offer), Step(db, cmd), f.job, Some(f.driver), cmd.now, cmd.found,
                          OfferReassigned, ExhaustAfterReject, Some(f.driver))
  {
    hide Inv, Sound, Asked, Joined, Step, Answer, SearchEnds, AfterRejection, Execute;
    var ix := Executed(db, cmd);
    RejectedHow(db, ix, cmd);
    EndsSame(db, AfterRejection(db, cmd.offer), Execute(db, cmd).0, Step(db, cmd), db.core.offers[cmd.offer].job,
             Some(cmd.driver), cmd.now, cmd.found, OfferReassigned, ExhaustAfterReject, Some(cmd.driver));
  }

  lemma EndsSame(
      db: Db, db1: Db, a: Db, b: Db, j: Job, excluded: Option<Id>, now: Time, found: seq<R.Candidate>, kind: EventKind,
      act: Act, actor: Option<Id>)
    requires Known(db1, j) && SearchEnds(db, db1, a, j, excluded, now, found, kind, act, actor) && Same(b, a)
    ensures SearchEnds(db, db1, b, j, excluded, now, found, kind, act, actor)
  {
    hide Best, NoneMayBeAsked, MaxAttempt, AsksFor, GivenUp;
    if x :| Best(db.core, j, excluded, found, x) && AsksFor(db, db1, a, j, x.driver, now, kind) {
      AsksSame(db, db1, a, b, j, x.driver, now, kind);
    }
  }

  lemma AsksSame(db: Db, db1: Db, a: Db, b: Db, j: Job, d: Id, now: Time, kind: EventKind)
    requires Known(db1, j) && AsksFor(db, db1, a, j, d, now, kind) && Same(b, a)
    ensures AsksFor(db, db1, b, j, d, now, kind)
  {
    hide MaxAttempt, AskedFor;
  }

  lemma RejectedHow(db: Db, ix: Index, cmd: Command)
    requires Sound(db, ix) && Joined(db) && cmd.RejectTrip? && Execute(db, cmd).1.Ok?
    ensures OfferRows(db.core, cmd.offer) && Known(db, db.core.offers[cmd.offer].job)
    ensures var f := db.core.offers[cmd.offer];
            && f.job.Trip? && f.driver == cmd.driver && f.status.Pending? && cmd.now < f.expiresAt
            && SearchEnds(db, AfterRejection(db, cmd.offer), Execute(db, cmd).0, f.job, Some(f.driver), cmd.now, cmd.found,
                          OfferReassigned, ExhaustAfterReject, Some(f.driver))
  {
    hide Sound, Joined, Expire, Refuse, Search, NextDriver, SearchEnds, AfterRejection, AfterExpiry, Searching, Alike, Refused;
    RejectionIs(db, ix, cmd.offer);
    RefuseKeeps(db, ix, cmd.offer);
    var f := db.core.offers[cmd.offer];
    SearchEndsSo(db, Refuse(db, cmd.offer), ix, f.job, Some(f.driver), cmd.now, cmd.found, OfferReassigned, ExhaustAfterReject,
                 Some(f.driver));
  }

  /** A sweep expires its offer exactly when that is a pending, due Trip offer that it gets hold of, and goes on likewise. */
  lemma SweepOutcome(db: Db, cmd: Command)
    requires Inv(db) && cmd.SweepTrip? && Answer(db, cmd).Ok?
    ensures Answer(db, cmd) == Ok(SweepResponse(true)) <==>
              && cmd.offer in db.core.offers && db.core.offers[cmd.offer].job.Trip?
              && db.core.offers[cmd.offer].status.Pending? && db.core.offers[cmd.offer].expiresAt <= cmd.now && !cmd.locked
    ensures Answer(db, cmd) != Ok(SweepResponse(true)) ==> Step(db, cmd) == db
    ensures Answer(db, cmd) == Ok(SweepResponse(true)) ==>
              && OfferRows(db.core, cmd.offer) && Known(db, db.core.offers[cmd.offer].job)
              && var f := db.core.offers[cmd.offer];
                 SearchEnds(db, AfterExpiry(db, cmd.offer), Step(db, cmd), f.job, Some(f.driver), cmd.now, cmd.found,
                            OfferReassigned, ExpireNoReassignment, None)
  {
    hide Inv, Sound, Asked, Joined, Step, Answer, SearchEnds, AfterExpiry, Execute;
    var ix := Executed(db, cmd);
    ReceiptsStay(db, cmd);
    SweptHow(db, ix, cmd);
  }

  lemma SweptHow(db: Db, ix: Index, cmd: Command)
    requires Sound(db, ix) && Joined(db) && cmd.SweepTrip? && Execute(db, cmd).1.Ok?
    ensures Execute(db, cmd).1 == Ok(SweepResponse(true)) <==>
              && cmd.offer in db.core.offers && db.core.offers[cmd.offer].job.Trip?
              && db.core.offers[cmd.offer].status.Pending? && db.core.offers[cmd.offer].expiresAt <= cmd.now && !cmd.locked
    ensures Execute(db, cmd).1 != Ok(SweepResponse(true)) ==> Execute(db, cmd).0 == db
    ensures Execute(db, cmd).1 == Ok(SweepResponse(true)) ==>
              && OfferRows(db.core, cmd.offer) && Known(db, db.core.offers[cmd.offer].job)
              && var f := db.core.offers[cmd.offer];
                 SearchEnds(db, AfterExpiry(db, cmd.offer), Execute(db, cmd).0, f.job, Some(f.driver), cmd.now, cmd.found,
                            OfferReassigned, ExpireNoReassignment, None)
  {
    hide Sound, Joined, Lapse, Search, NextDriver, SearchEnds, AfterExpiry, AfterRejection, Searching, Alike;
    if Execute(db, cmd).1 == Ok(SweepResponse(true)) {
      RejectionIs(db, ix, cmd.offer);
      LapseKeeps(db, ix, cmd.offer);
      var f := db.core.offers[cmd.offer];
      SearchEndsSo(db, Lapse(db, cmd.offer), ix, f.job, Some(f.driver), cmd.now, cmd.found, OfferReassigned,
                   ExpireNoReassignment, None);
    }
  }

  // ---- Starting a match

  /** The Trip once its match is started, before a Driver is searched for. */
  function AfterStart(db: Db, j: Job, actor: Option<Id>): (db1: Db)
    requires Known(db, j)
    ensures Known(db1, j)
  {
    Stepped(db, j, Matching, StartMatching, actor, MatchingStarted, Some(Matching), {})
  }

  /**
   * A match that is started searches for a first Driver. One that is started again changes nothing while an
   * offer is pending, and else searches for the next.
   */
  lemma StartTripOutcome(db: Db, cmd: Command)
    requires Inv(db) && cmd.StartTrip? && Unused(db, cmd) && Answer(db, cmd).Ok?
    ensures var j := Trip(cmd.id);
            && Known(db, j) && db.core.jobs[j].customer == cmd.customer
            && match db.core.jobs[j].state
               case Requested =>
                 SearchEnds(db, AfterStart(db, j, None), Step(db, cmd), j, None, cmd.now, cmd.found, OfferCreated, ExhaustMatching, None)
               case Matching =>
                 if Awaiting(db.core, j) then Same(Step(db, cmd), db)
                 else SearchEnds(db, db, Step(db, cmd), j, None, cmd.now, cmd.found, OfferCreated, ExhaustMatching, None)
               case _ => false
  {
    hide Inv, Sound, Asked, Joined, Step, Answer, SearchEnds, AfterStart, Execute, Awaiting;
    var ix := Executed(db, cmd);
    var j := Trip(cmd.id);
    StartedHow(db, ix, cmd);
    if db.core.jobs[j].state.Requested? {
      EndsSame(db, AfterStart(db, j, None), Execute(db, cmd).0, Step(db, cmd), j, None, cmd.now, cmd.found, OfferCreated, ExhaustMatching, None);
    } else if !Awaiting(db.core, j) {
      EndsSame(db, db, Execute(db, cmd).0, Step(db, cmd), j, None, cmd.now, cmd.found, OfferCreated, ExhaustMatching, None);
    }
  }

  lemma StartedHow(db: Db, ix: Index, cmd: Command)
    requires Sound(db, ix) && Joined(db) && cmd.StartTrip? && Execute(db, cmd).1.Ok?
    ensures var j, db' := Trip(cmd.id), Execute(db, cmd).0;
            && Known(db, j) && db.core.jobs[j].customer == cmd.customer
            && match db.core.jobs[j].state
               case Requested =>
                 SearchEnds(db, AfterStart(db, j, None), db', j, None, cmd.now, cmd.found, OfferCreated, ExhaustMatching, None)
               case Matching =>
                 if Awaiting(db.core, j) then db' == db
                 else SearchEnds(db, db, db', j, None, cmd.now, cmd.found, OfferCreated, ExhaustMatching, None)
               case _ => false
  {
    hide Sound, Joined, Search, NextDriver, PendingOffer, SearchEnds, AfterStart, Advance, Alike, HasPending, Matched, Awaiting, MaxAttempt,
         Candidates, Stepped;
    var j := Trip(cmd.id);
    JobKnown(db, j);
    AwaitingIff(db.core, j);
    StartIs(db, j, None);
    if db.core.jobs[j].state.Requested? {
      BegunAlike(db, ix, j, cmd.found);
      StartSearching(db, ix, j);
      SearchEndsSo(db, BeginMatching(db, j, None), ix, j, None, cmd.now, cmd.found, OfferCreated, ExhaustMatching, None);
    } else if !Awaiting(db.core, j) {
      SameAlike(db.core, db.core, j, None);
      NotAwaitedSearching(db, ix, j);
      SearchEndsSo(db, db, ix, j, None, cmd.now, cmd.found, OfferCreated, ExhaustMatching, None);
    }
  }

  lemma StartIs(db: Db, j: Job, actor: Option<Id>)
    requires Known(db, j)
    ensures BeginMatching(db, j, actor) == AfterStart(db, j, actor)
    ensures j.Trip? ==> Alike(db.core, AfterStart(db, j, actor).core, j, None)
  {
    hide Advance, Alike, Stepped;
    SteppedIs(db, j, Matching, StartMatching, actor, MatchingStarted, Some(Matching), {});
    StepRows(db, j, Matching, StartMatching, actor, MatchingStarted, Some(Matching), {});
    if j.Trip? { SameAlike(db.core, AfterStart(db, j, actor).core, j, None); }
  }

  lemma StartSearching(db: Db, ix: Index, j: Job)
    requires Sound(db, ix) && Known(db, j) && j.Trip? && db.core.jobs[j].state.Requested?
    ensures Searching(BeginMatching(db, j, None), ix, j)
  {
    hide Linked, Logged, Settled, HasPending, MaxAttempt, Evolves, Advance;
    StartedTrip(db, ix, j);
    StartedCount(db, ix, j);
  }

  lemma NotAwaitedSearching(db: Db, ix: Index, j: Job)
    requires Sound(db, ix) && Known(db, j) && db.core.jobs[j].state.Matching? && !Awaiting(db.core, j)
    ensures Searching(db, ix, j)
  {
    if HasPending(db.core, ix, j) { PendingIsAwaited(db.core, ix, j); }
  }

  lemma PendingIsAwaited(c: Core, ix: Index, j: Job)
    requires Linked(c, ix) && j in c.jobs && HasPending(c, ix, j)
    ensures Awaiting(c, j)
  {
    assert JobOk(c, ix, j);
    assert OfferOk(c, ix, Last(ix.trail[j]));
  }

  // ---- Driving

  /** An assigned Driver's step of the aggregate. */
  function Driven(db: Db, a: Id, to: State, work: WorkState, custody: Option<string>, act: Act, kind: EventKind): Db
    requires AssignmentRows(db.core, a) && Known(db, db.core.assignments[a].job)
  {
    var g, c := db.core.assignments[a], db.core;
    Stepped(db.(core := c.(assignments := c.assignments[a := Assignment(g.job, g.offer, g.driver, g.status, custody)],
                           work := c.work[g.driver := Bound(c.work[g.driver], g.job, work)])),
            g.job, to, act, Some(g.driver), kind, Some(to), {g.driver})
  }

  /** An assignment ended: its Driver free, and the aggregate over with the given price columns. */
  function Over(
      db: Db, a: Id, status: AssignmentStatus, to: State, ride: Ride, act: Act, actor: Id, kind: EventKind): Db
    requires AssignmentRows(db.core, a) && Known(db, db.core.assignments[a].job)
  {
    var g, c := db.core.assignments[a], db.core;
    var row := c.jobs[g.job];
    Stepped(db.(core := c.(assignments := c.assignments[a := Assignment(g.job, g.offer, g.driver, status, g.custody)],
                           work := c.work[g.driver := Idle(c.work[g.driver])],
                           jobs := c.jobs[g.job := JobRow(row.customer, row.state, row.version, ride)])),
            g.job, to, act, Some(actor), kind, Some(to), {g.driver})
  }

  lemma WorkingRow(db: Db, ix: Index, a: Id)
    requires Sound(db, ix) && a in db.core.assignments && db.core.assignments[a].status.Working?
    ensures AssignmentRows(db.core, a) && Known(db, db.core.assignments[a].job)
    ensures Current(db.core.work[db.core.assignments[a].driver]) == Some(db.core.assignments[a].job)
  {
    hide Linked, Logged, Settled;
    AllKnown(db, ix);
    WorkingFacts(db.core, ix, a);
  }

  lemma DrivenIs(db: Db, ix: Index, a: Id, to: State, work: WorkState, custody: Option<string>, act: Act, kind: EventKind)
    requires Sound(db, ix) && a in db.core.assignments && db.core.assignments[a].status.Working?
    ensures AssignmentRows(db.core, a) && Known(db, db.core.assignments[a].job)
    ensures Drive(db, a, to, work, custody, act, kind) == Driven(db, a, to, work, custody, act, kind)
  {
    hide Sound;
    WorkingRow(db, ix, a);
  }

  lemma OverIs(
      db: Db, ix: Index, a: Id, status: AssignmentStatus, to: State, ride: Ride, act: Act, actor: Id, kind: EventKind)
    requires Sound(db, ix) && a in db.core.assignments && db.core.assignments[a].status.Working?
    ensures AssignmentRows(db.core, a) && Known(db, db.core.assignments[a].job)
    ensures Finish(db, a, status, to, ride, None, act, actor, kind) == Over(db, a, status, to, ride, act, actor, kind)
  {
    hide Sound;
    WorkingRow(db, ix, a);
  }

  /**
   * The assigned Driver arrives, starts, or completes, each from the state before it. A completion bills the
   * metered distance and duration at the Trip's surge, and frees the Driver.
   */
  predicate DrivesTrip(db: Db, cmd: Command, a: Id, db': Db, answer: Outcome)
    requires cmd.DriveTrip? && AssignmentRows(db.core, a) && Known(db, db.core.assignments[a].job)
  {
    var g := db.core.assignments[a];
    var row := db.core.jobs[g.job];
    && g.job == Trip(cmd.id) && g.driver == cmd.driver && g.status.Working? && row.ride.Ride?
    && match cmd.action
       case ArriveAtPickup =>
         && row.state.DriverToPickup?
         && Same(db', Driven(db, a, AtPickup, ToPickup, g.custody, Arrive, DriverArrived))
         && answer == Ok(JobResponse(g.job, AtPickup, row.version + 1, Some(g.driver), None, None))
       case StartJob =>
         && row.state.AtPickup?
         && Same(db', Driven(db, a, InProgress, OnTrip, g.custody, Start, Started))
         && answer == Ok(JobResponse(g.job, InProgress, row.version + 1, Some(g.driver), None, None))
       case CompleteJob =>
         && row.state.InProgress? && cmd.distance.Some? && cmd.duration.Some?
         && var m := Metering(cmd.distance.value, cmd.duration.value, row.ride.surge);
            && Price(m, row.ride.rules).Some?
            && var fare := Price(m, row.ride.rules).value.total;
               && Same(db', Over(db, a, Done, Completed,
                                 Ride(row.ride.quote, row.ride.rules, row.ride.surge, row.ride.quotedTotal, Some(m), Some(fare)),
                                 Complete, g.driver, CompletedEvent))
               && answer == Ok(JobResponse(g.job, Completed, row.version + 1, Some(g.driver), Some(m), Some(fare)))
  }

  lemma DriveTripOutcome(db: Db, cmd: Command) returns (a: Id)
    requires Inv(db) && cmd.DriveTrip? && Unused(db, cmd) && Answer(db, cmd).Ok?
    ensures AssignmentRows(db.core, a) && Known(db, db.core.assignments[a].job)
    ensures DrivesTrip(db, cmd, a, Step(db, cmd), Answer(db, cmd))
  {
    hide Inv, Sound, Asked, Joined, Execute, Driven, Over, Price, Step, Answer;
    var ix := Executed(db, cmd);
    a := TripDrivenHow(db, ix, cmd);
  }

  lemma TripDrivenHow(db: Db, ix: Index, cmd: Command) returns (a: Id)
    requires Sound(db, ix) && Joined(db) && cmd.DriveTrip? && Execute(db, cmd).1.Ok?
    ensures AssignmentRows(db.core, a) && Known(db, db.core.assignments[a].job)
    ensures DrivesTrip(db, cmd, a, Execute(db, cmd).0, Execute(db, cmd).1)
  {
    hide Sound, Joined, AssignmentOf, Price;
    AssignmentFound(db, Trip(cmd.id), cmd.driver);
    a := AssignmentOf(db.core, Trip(cmd.id), cmd.driver).value;
    WorkingRow(db, ix, a);
    UnbilledRow(db, ix, Trip(cmd.id));
    var ride := db.core.jobs[Trip(cmd.id)].ride;
    match cmd.action
    case ArriveAtPickup => DrivenIs(db, ix, a, AtPickup, ToPickup, db.core.assignments[a].custody, Arrive, DriverArrived);
    case StartJob => DrivenIs(db, ix, a, InProgress, OnTrip, db.core.assignments[a].custody, Start, Started);
    case CompleteJob =>
      var m := Metering(cmd.distance.value, cmd.duration.value, ride.surge);
      OverIs(db, ix, a, Done, Completed,
             Ride(ride.quote, ride.rules, ride.surge, ride.quotedTotal, Some(m), Some(Price(m, ride.rules).value.total)),
             Complete, cmd.driver, CompletedEvent);
  }

  lemma UnbilledRow(db: Db, ix: Index, j: Job)
    requires Sound(db, ix) && j in db.core.jobs && j.Trip?
    ensures var row := db.core.jobs[j];
            row.ride.Ride? && (!row.state.Completed? ==> row.ride.metering.None? && row.ride.finalFare.None?)
  {
    assert RideOk(db.core, db.books, ix, j);
  }

  // ---- Cancellation

  /** The aggregate cancelled by its Customer, naming the given Drivers. */
  function CancelledBy(db: Db, j: Job, drivers: set<Id>): Db
    requires Known(db, j)
  {
    Stepped(db, j, Cancelled, Cancel, Some(db.core.jobs[j].customer), CancelledEvent, Some(Cancelled), drivers)
  }

  /** What else ends with the Trip: its pending offer, or the assignment of the Driver at work on it. */
  datatype Held = NoDriver | OfferHeld(offer: Id) | AssignmentHeld(assignment: Id)

  ghost predicate HeldBy(db: Db, j: Job, held: Held) {
    match held
    case NoDriver => !Awaiting(db.core, j) && forall a | a in db.core.assignments :: !(db.core.assignments[a].job == j && db.core.assignments[a].status.Working?)
    case OfferHeld(o) => OfferRows(db.core, o) && db.core.offers[o].job == j && db.core.offers[o].status.Pending?
    case AssignmentHeld(a) => AssignmentRows(db.core, a) && db.core.assignments[a].job == j && db.core.assignments[a].status.Working?
  }

  /**
   * A Trip that has not started is cancelled, under the rule for its state, together with the offer or the
   * assignment that it holds, whose Driver is free again and named.
   */
  ghost predicate CancelsTrip(db: Db, cmd: Command, held: Held, db': Db, answer: Outcome)
    requires cmd.CancelTrip? && Known(db, Trip(cmd.id))
  {
    var j := Trip(cmd.id);
    var row := db.core.jobs[j];
    && row.customer == cmd.customer && row.state in {Requested, Matching, DriverToPickup, AtPickup} && HeldBy(db, j, held)
    && (match held
        case NoDriver => Same(db', CancelledBy(db, j, {}))
        case OfferHeld(o) =>
          Known(Ended(db, o, Revoked, Released), j)
          && Same(db', CancelledBy(Ended(db, o, Revoked, Released), j, {db.core.offers[o].driver}))
        case AssignmentHeld(a) => Same(db', Over(db, a, Dropped, Cancelled, row.ride, Cancel, cmd.customer, CancelledEvent)))
    && answer == Ok(CancelResponse(j, row.version + 1,
                                   if held.AssignmentHeld? then Some(db.core.assignments[held.assignment].driver) else None,
                                   if row.state.AtPickup? then CustomerAtPickup else CustomerPreTrip))
  }

  lemma CancelOutcome(db: Db, cmd: Command) returns (held: Held)
    requires Inv(db) && cmd.CancelTrip? && Unused(db, cmd) && Answer(db, cmd).Ok?
    ensures Known(db, Trip(cmd.id)) && CancelsTrip(db, cmd, held, Step(db, cmd), Answer(db, cmd))
  {
    hide Inv, Sound, Asked, Joined, Execute, Over, Ended, HeldBy, CancelledBy, Step, Answer;
    var ix := Executed(db, cmd);
    held := CancelledHow(db, ix, cmd);
  }

  lemma CancelledHow(db: Db, ix: Index, cmd: Command) returns (held: Held)
    requires Sound(db, ix) && Joined(db) && cmd.CancelTrip? && Execute(db, cmd).1.Ok?
    ensures Known(db, Trip(cmd.id)) && CancelsTrip(db, cmd, held, Execute(db, cmd).0, Execute(db, cmd).1)
  {
    hide Sound, Joined, PendingOffer, WorkingAssignment, Finish, Drop, Advance, Over, Ended, Stepped, HasPending;
    var j := Trip(cmd.id);
    JobKnown(db, j);
    var customer := db.core.jobs[j].customer;
    if Staffed(db.core.jobs[j].state) {
      StaffedWorking(db, ix, j);
      WorkingFound(db.core, j);
      var a := WorkingAssignment(db.core, j).value;
      OverIs(db, ix, a, Dropped, Cancelled, db.core.jobs[j].ride, Cancel, customer, CancelledEvent);
      held := AssignmentHeld(a);
    } else if PendingOffer(db.core, j).Some? {
      PendingFound(db.core, j);
      var o := PendingOffer(db.core, j).value;
      EndedIs(db, ix, o, Revoked, Released);
      RevokedKnown(db, o, j);
      SteppedIs(Ended(db, o, Revoked, Released), j, Cancelled, Cancel, Some(customer), CancelledEvent, Some(Cancelled),
                {db.core.offers[o].driver});
      held := OfferHeld(o);
    } else {
      AwaitingIff(db.core, j);
      NobodyWorks(db, ix, j);
      SteppedIs(db, j, Cancelled, Cancel, Some(customer), CancelledEvent, Some(Cancelled), {});
      held := NoDriver;
    }
  }

  lemma RevokedKnown(db: Db, o: Id, j: Job)
    requires OfferRows(db.core, o) && Known(db, j)
    ensures Known(Ended(db, o, Revoked, Released), j) && Ended(db, o, Revoked, Released).core.jobs == db.core.jobs
  {
  }

  lemma NobodyWorks(db: Db, ix: Index, j: Job)
    requires Sound(db, ix) && j in db.core.jobs && !Staffed(db.core.jobs[j].state)
    ensures forall a | a in db.core.assignments :: !(db.core.assignments[a].job == j && db.core.assignments[a].status.Working?)
  {
    hide Linked, Logged, Settled;
    forall a | a in db.core.assignments ensures !(db.core.assignments[a].job == j && db.core.assignments[a].status.Working?) {
      if db.core.assignments[a].status.Working? { WorkingFacts(db.core, ix, a); }
    }
  }
}
