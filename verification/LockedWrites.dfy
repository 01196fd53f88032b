/**
 * What a transaction changes it has locked: every row that a command finds and leaves different is among
 * the locks of its program. Two commands that would change the same row therefore never both hold it.
 */
module LockedWrites {
  import opened Basics
  import Fare
  import opened Tables
  import opened Events
  import opened Commitments
  import opened CommitmentSteps
  import opened Journals
  import opened Settlement
  import opened Steps
  import R = Ranking
  import opened Queries
  import opened Commands
  import opened CommandProofs
  import opened Runs
  import opened Repositories
  import opened Idempotency
  import opened Guards
  import opened Searches
  import opened Outcomes
  import opened DeliveryOutcomes
  import opened Locking

  // ---- Rows found and rows changed

  /** The offer that an answer or a sweep names, with the rows that its own row names. */
  predicate Concerns(c: Core, o: Id, r: Rows) {
    && OneOffer(r) && r.offers[0] == o
    && (o in c.offers ==>
          && r.job == c.offers[o].job.id && r.reservations[0] == c.offers[o].reservation
          && r.drivers[0] == c.offers[o].driver)
  }

  /** What a cancellation finds: the pending offers, or, without one, the assignment of the Driver at work. */
  ghost predicate Cancels(c: Core, j: Job, r: Rows) {
    && |r.reservations| == |r.offers| && multiset(r.offers) == multiset(PendingOffers(c, j))
    && (if r.offers != [] then
          && |r.drivers| == |r.offers|
          && forall i | 0 <= i < |r.offers| ::
               && r.offers[i] in c.offers && r.reservations[i] == c.offers[r.offers[i]].reservation
               && r.drivers[i] == c.offers[r.offers[i]].driver
        else forall a | a in c.assignments && c.assignments[a].job == j && c.assignments[a].status.Working? ::
               r.assignment == a && r.drivers == [c.assignments[a].driver])
  }

  /** The rows that the command's queries answer in the database. */
  ghost predicate Finds(db: Db, cmd: Command, r: Rows) {
    match cmd
    case StartTrip(_, _, _, _, _, found) => forall x | x in found :: x.driver in r.candidates
    case AcceptTrip(_, o, _, _, _) => Concerns(db.core, o, r)
    case RejectTrip(_, o, _, _, _, found) => Concerns(db.core, o, r) && forall x | x in found :: x.driver in r.candidates
    case SweepTrip(o, _, _, found) => Concerns(db.core, o, r) && forall x | x in found :: x.driver in r.candidates
    case DriveTrip(d, id, _, _, _, _, _) => forall a | a in AssignmentsOf(db.core, Trip(id), d) :: r.assignment == a
    case CancelTrip(_, id, _, _) => Cancels(db.core, Trip(id), r)
    case StartDelivery(_, _, _, _, _, found) => forall x | x in found :: x.driver in r.candidates
    case AcceptDelivery(_, o, _, _) => Concerns(db.core, o, r)
    case DriveDelivery(d, id, _, _, _, _) => forall a | a in AssignmentsOf(db.core, Delivery(id), d) :: r.assignment == a
    case SweepDelivery(o, _, _) => Concerns(db.core, o, r)
    case _ => true
  }

  ghost predicate Altered<K, V>(m: map<K, V>, m': map<K, V>, k: K) {
    k in m && (k !in m' || m'[k] != m[k])
  }

  /** The row behind the lock is in the first database, and in the second it is gone or different. */
  ghost predicate Changed(db: Db, db': Db, l: Lock) {
    match l.kind
    case TripLock => Altered(db.core.jobs, db'.core.jobs, Trip(l.id))
    case DeliveryLock => Altered(db.core.jobs, db'.core.jobs, Delivery(l.id))
    case OfferLock => Altered(db.core.offers, db'.core.offers, l.id)
    case ReservationLock => Altered(db.core.reservations, db'.core.reservations, l.id)
    case AssignmentLock => Altered(db.core.assignments, db'.core.assignments, l.id)
    case WorkLock => Altered(db.core.work, db'.core.work, l.id)
    case QuoteLock => Altered(db.books.quotes, db'.books.quotes, l.id)
    case _ => false
  }

  ghost predicate Locked(program: seq<Op>, l: Lock) {
    exists i :: 0 <= i < |program| && program[i].lock == l
  }

  // ---- Programs

  lemma LockedIn(a: seq<Op>, b: seq<Op>, l: Lock)
    requires Locked(a, l) || Locked(b, l)
    ensures Locked(a + b, l)
  {
    if Locked(a, l) {
      var i :| 0 <= i < |a| && a[i].lock == l;
      assert (a + b)[i] == a[i];
    } else {
      var i :| 0 <= i < |b| && b[i].lock == l;
      assert (a + b)[|a| + i] == b[i];
    }
  }

  lemma {:induction false} SkipsLock(ids: seq<Id>, d: Id)
    requires d in ids
    ensures Locked(SkipAll(ids), Lock(WorkLock, d))
    decreases |ids|
  {
    var first := [Skip(Lock(WorkLock, ids[0]))];
    if d == ids[0] {
      assert first[0].lock == Lock(WorkLock, d);
    } else {
      SkipsLock(ids[1..], d);
    }
    LockedIn(first, SkipAll(ids[1..]), Lock(WorkLock, d));
  }

  // ---- Steps

  function LockOf(j: Job): Lock {
    Lock(if j.Trip? then TripLock else DeliveryLock, j.id)
  }

  lemma ChangedThen(a: Db, b: Db, c: Db, l: Lock)
    requires Changed(a, c, l)
    ensures Changed(a, b, l) || Changed(b, c, l)
  {
  }

  lemma ChangedSame(db: Db, a: Db, b: Db, l: Lock)
    requires Changed(db, a, l) && Same(a, b)
    ensures Changed(db, b, l)
  {
  }

  lemma SteppedChanges(
      db: Db, j: Job, to: State, act: Act, actor: Option<Id>, kind: EventKind, carried: Option<State>, drivers: set<Id>, l: Lock)
    requires Known(db, j) && Changed(db, Stepped(db, j, to, act, actor, kind, carried, drivers), l)
    ensures l == LockOf(j)
  {
  }

  lemma EndedChanges(db: Db, o: Id, status: OfferStatus, reservation: ReservationStatus, l: Lock)
    requires OfferRows(db.core, o) && Changed(db, Ended(db, o, status, reservation), l)
    ensures l in {Lock(OfferLock, o), Lock(ReservationLock, db.core.offers[o].reservation), Lock(WorkLock, db.core.offers[o].driver)}
  {
  }

  lemma AskedForChanges(db: Db, j: Job, d: Id, now: Time, attempt: nat, kind: EventKind, l: Lock)
    requires Known(db, j) && d in db.core.work && IdsOk(db.core) && Changed(db, AskedFor(db, j, d, now, attempt, kind), l)
    ensures l == Lock(WorkLock, d)
  {
  }

  lemma HiredForChanges(db: Db, o: Id, key: Id, now: Time, l: Lock)
    requires OfferRows(db.core, o) && Known(db, db.core.offers[o].job) && IdsOk(db.core)
    requires Changed(db, HiredFor(db, o, key, now), l)
    ensures var f := db.core.offers[o];
            l in {LockOf(f.job), Lock(OfferLock, o), Lock(ReservationLock, f.reservation), Lock(WorkLock, f.driver)}
  {
  }

  lemma DrivenChanges(
      db: Db, a: Id, to: State, work: WorkState, custody: Option<string>, act: Act, kind: EventKind, l: Lock)
    requires AssignmentRows(db.core, a) && Known(db, db.core.assignments[a].job)
    requires Changed(db, Driven(db, a, to, work, custody, act, kind), l)
    ensures var g := db.core.assignments[a]; l in {LockOf(g.job), Lock(AssignmentLock, a), Lock(WorkLock, g.driver)}
  {
  }

  lemma OverChanges(
      db: Db, a: Id, status: AssignmentStatus, to: State, ride: Ride, act: Act, actor: Id, kind: EventKind, l: Lock)
    requires AssignmentRows(db.core, a) && Known(db, db.core.assignments[a].job)
    requires Changed(db, Over(db, a, status, to, ride, act, actor, kind), l)
    ensures var g := db.core.assignments[a]; l in {LockOf(g.job), Lock(AssignmentLock, a), Lock(WorkLock, g.driver)}
  {
  }

  lemma HandedOverChanges(db: Db, b: Db, proof: Proof, l: Lock)
    requires Changed(db, HandedOver(b, proof), l)
    ensures Changed(db, b, l)
  {
  }

  /** A search changes the work state of a Driver among those found, or gives the aggregate up. */
  lemma SearchChanges(
      db: Db, db1: Db, db': Db, j: Job, excluded: Option<Id>, now: Time, found: seq<R.Candidate>, kind: EventKind, act: Act,
      actor: Option<Id>, l: Lock)
    requires Known(db1, j) && IdsOk(db1.core)
    requires Outcomes.SearchEnds(db, db1, db', j, excluded, now, found, kind, act, actor) && Changed(db1, db', l)
    ensures l == LockOf(j) || exists x :: x in found && l == Lock(WorkLock, x.driver)
  {
    hide MaxAttempt, NoneMayBeAsked, AskedFor, Stepped, Changed, IdsOk, MayBeAsked;
    if x :| Best(db.core, j, excluded, found, x) && AsksFor(db, db1, db', j, x.driver, now, kind) {
      var asked := AskedFor(db1, j, x.driver, now, MaxAttempt(db.core, j) + 1, kind);
      ChangedSame(db1, db', asked, l);
      AskedForChanges(db1, j, x.driver, now, MaxAttempt(db.core, j) + 1, kind, l);
    } else {
      ChangedSame(db1, db', GivenUp(db1, j, act, actor), l);
      SteppedChanges(db1, j, NoDriverAvailable, act, actor, NoDriverEvent, Some(NoDriverAvailable), {}, l);
    }
  }

  lemma SteppedIds(
      db: Db, j: Job, to: State, act: Act, actor: Option<Id>, kind: EventKind, carried: Option<State>, drivers: set<Id>)
    requires Known(db, j) && IdsOk(db.core)
    ensures IdsOk(Stepped(db, j, to, act, actor, kind, carried, drivers).core)
  {
  }

  lemma EndedIds(db: Db, o: Id, status: OfferStatus, reservation: ReservationStatus)
    requires OfferRows(db.core, o) && IdsOk(db.core)
    ensures IdsOk(Ended(db, o, status, reservation).core)
  {
  }

  lemma Unmoved(db: Db, l: Lock)
    ensures !Changed(db, db, l)
  {
  }

  // ---- Commands

  lemma ReceiptsSame(db: Db, cmd: Command)
    requires Inv(db)
    ensures Joined(db)
    ensures LateAnswer(db, cmd) ==> cmd.AcceptTrip? || cmd.RejectTrip?
    ensures !Unused(db, cmd) ==> Step(db, cmd) == db
    ensures Unused(db, cmd) && !Answer(db, cmd).Ok? && !LateAnswer(db, cmd) ==> Step(db, cmd) == db
  {
    hide Inv, Joined, Execute;
    InvJoined(db);
    FailureKeeps(db, cmd);
    if cmd.AcceptTrip? || cmd.RejectTrip? { LateIff(db, cmd); }
  }

  /** The rows of an offer: its aggregate, itself, its reservation and its Driver. */
  function OfferRowLocks(c: Core, o: Id): set<Lock>
    requires o in c.offers
  {
    var f := c.offers[o];
    {LockOf(f.job), Lock(OfferLock, o), Lock(ReservationLock, f.reservation), Lock(WorkLock, f.driver)}
  }

  lemma AnswerLocks(db: Db, cmd: Command, r: Rows, l: Lock)
    requires cmd.AcceptTrip? || cmd.RejectTrip? || cmd.SweepTrip? || cmd.AcceptDelivery? || cmd.SweepDelivery?
    requires Finds(db, cmd, r) && cmd.offer in db.core.offers && l in OfferRowLocks(db.core, cmd.offer)
    requires db.core.offers[cmd.offer].job.Trip? <==> cmd.AcceptTrip? || cmd.RejectTrip? || cmd.SweepTrip?
    requires cmd.AcceptDelivery? ==> db.core.offers[cmd.offer].driver == cmd.driver
    ensures Locked(Locks(cmd, r), l)
  {
    var p := Locks(cmd, r);
    if cmd.AcceptTrip? || cmd.RejectTrip? {
      assert p[2].lock == LockOf(db.core.offers[cmd.offer].job) && p[3].lock == Lock(OfferLock, cmd.offer);
      assert p[4].lock == Lock(ReservationLock, r.reservations[0]) && p[5].lock == Lock(WorkLock, r.drivers[0]);
    } else {
      assert p[0].lock in {LockOf(db.core.offers[cmd.offer].job), Lock(OfferLock, cmd.offer)};
      assert p[1].lock in {LockOf(db.core.offers[cmd.offer].job), Lock(OfferLock, cmd.offer)};
      assert p[2].lock == Lock(ReservationLock, r.reservations[0]) && p[3].lock == Lock(WorkLock, r.drivers[0]);
    }
  }

  /** A search's command locks the work states of the Drivers found. */
  lemma FoundLocked(db: Db, cmd: Command, r: Rows, x: R.Candidate)
    requires cmd.StartTrip? || cmd.RejectTrip? || cmd.SweepTrip? || cmd.StartDelivery?
    requires Finds(db, cmd, r) && x in cmd.found
    ensures Locked(Locks(cmd, r), Lock(WorkLock, x.driver))
  {
    var l, skips := Lock(WorkLock, x.driver), SkipAll(r.candidates);
    SkipsLock(r.candidates, x.driver);
    match cmd
    case StartTrip(_, id, _, _, _, _) =>
      LockedIn(Receipts(r) + [Await(Lock(TripLock, id))] + AwaitAll(OfferLock, if r.offers == [] then [] else r.offers[..1]), skips, l);
    case RejectTrip(_, _, _, _, _, _) => LockedIn(Receipts(r) + [Await(Lock(TripLock, r.job))] + OfferLocks(r), skips, l);
    case SweepTrip(_, _, _, _) =>
      LockedIn([Skip(Lock(TripLock, r.job)), Skip(Lock(OfferLock, r.offers[0])), Skip(Lock(ReservationLock, r.reservations[0])),
                Skip(Lock(WorkLock, r.drivers[0]))], skips, l);
    case StartDelivery(_, id, _, _, _, _) => LockedIn(Receipts(r) + [Await(Lock(DeliveryLock, id))], skips, l);
  }

  lemma WorkLocked(db: Db, cmd: Command, r: Rows, l: Lock)
    requires Inv(db) && cmd.SetWork? && Changed(db, Step(db, cmd), l)
    ensures Locked(Locks(cmd, r), l)
  {
    hide Inv, Step, Answer;
    WorkOutcome(db, cmd);
    assert Locks(cmd, r)[0].lock == Lock(WorkLock, cmd.driver);
  }

  lemma QuoteUnmoved(db: Db, cmd: Command, l: Lock)
    requires Inv(db) && cmd.IssueQuote?
    ensures !Changed(db, Step(db, cmd), l)
  {
    hide Inv, Step, Answer;
    QuoteOutcome(db, cmd);
    IdsBelow(db);
  }

  lemma OpenedUnmoved(db: Db, j: Job, customer: Id, ride: Ride, l: Lock)
    requires IdsOk(db.core) && j.id == db.core.nextId
    ensures !Changed(db, Opened(db, j, customer, ride), l) && Opened(db, j, customer, ride).books == db.books
  {
  }

  lemma CreateTripLocked(db: Db, cmd: Command, r: Rows, l: Lock)
    requires Inv(db) && cmd.CreateTrip? && Unused(db, cmd) && Answer(db, cmd).Ok? && Changed(db, Step(db, cmd), l)
    ensures Locked(Locks(cmd, r), l)
  {
    hide Inv, Step, Answer, Opened, IdsOk;
    CreateTripOutcome(db, cmd);
    IdsBelow(db);
    var q, j := db.books.quotes[cmd.quote], Trip(db.core.nextId);
    OpenedUnmoved(db, j, cmd.customer, Ride(cmd.quote, q.rules, q.surge, q.total, None, None), l);
    assert l == Lock(QuoteLock, cmd.quote);
    assert Locks(cmd, r)[2].lock == Lock(QuoteLock, cmd.quote);
  }

  lemma CreateDeliveryUnmoved(db: Db, cmd: Command, l: Lock)
    requires Inv(db) && cmd.CreateDelivery? && Unused(db, cmd)
    ensures !Changed(db, Step(db, cmd), l)
  {
    hide Inv, Step, Answer, Opened, IdsOk;
    CreateDeliveryOutcome(db, cmd);
    IdsBelow(db);
    OpenedUnmoved(db, Delivery(db.core.nextId), cmd.customer, Parcel, l);
  }

  lemma CaptureUnmoved(db: Db, cmd: Command, l: Lock)
    requires Inv(db) && cmd.Capture? && Unused(db, cmd) && Answer(db, cmd).Ok?
    ensures !Changed(db, Step(db, cmd), l)
  {
    hide Inv, Step, Answer;
    CaptureOutcome(db, cmd);
  }

  lemma StartTripLocked(db: Db, cmd: Command, r: Rows, l: Lock)
    requires Inv(db) && cmd.StartTrip? && Unused(db, cmd) && Answer(db, cmd).Ok? && Finds(db, cmd, r)
    requires Changed(db, Step(db, cmd), l)
    ensures Locked(Locks(cmd, r), l)
  {
    hide Inv, Step, Answer, Outcomes.SearchEnds, Stepped, Changed, Finds, Locks, IdsOk, Locked, Awaiting;
    var j := Trip(cmd.id);
    StartTripOutcome(db, cmd);
    IdsBelow(db);
    if db.core.jobs[j].state.Requested? {
      var db1 := AfterStart(db, j, None);
      SteppedIds(db, j, Matching, StartMatching, None, MatchingStarted, Some(Matching), {});
      ChangedThen(db, db1, Step(db, cmd), l);
      if Changed(db, db1, l) {
        SteppedChanges(db, j, Matching, StartMatching, None, MatchingStarted, Some(Matching), {}, l);
      } else {
        SearchChanges(db, db1, Step(db, cmd), j, None, cmd.now, cmd.found, OfferCreated, ExhaustMatching, None, l);
      }
    } else if Awaiting(db.core, j) {
      ChangedSame(db, Step(db, cmd), db, l);
      Unmoved(db, l);
    } else {
      SearchChanges(db, db, Step(db, cmd), j, None, cmd.now, cmd.found, OfferCreated, ExhaustMatching, None, l);
    }
    if l == LockOf(j) {
      JobLocked(cmd, r, l);
    } else {
      var x :| x in cmd.found && l == Lock(WorkLock, x.driver);
      FoundLocked(db, cmd, r, x);
    }
  }

  /** A command that names its aggregate locks it. */
  lemma JobLocked(cmd: Command, r: Rows, l: Lock)
    requires cmd.StartTrip? || cmd.DriveTrip? || cmd.CancelTrip? || cmd.StartDelivery? || cmd.DriveDelivery?
    requires l == if cmd.StartDelivery? || cmd.DriveDelivery? then Lock(DeliveryLock, cmd.id) else Lock(TripLock, cmd.id)
    ensures Locked(Locks(cmd, r), l)
  {
    assert Locks(cmd, r)[2].lock == l;
  }

  lemma AcceptTripLocked(db: Db, cmd: Command, r: Rows, l: Lock)
    requires Inv(db) && cmd.AcceptTrip? && Unused(db, cmd) && Answer(db, cmd).Ok? && Finds(db, cmd, r)
    requires Changed(db, Step(db, cmd), l)
    ensures Locked(Locks(cmd, r), l)
  {
    hide Inv, Step, Answer, HiredFor, Changed, Finds, Locks, IdsOk, Locked;
    AcceptTripOutcome(db, cmd);
    IdsBelow(db);
    ChangedSame(db, Step(db, cmd), HiredFor(db, cmd.offer, cmd.key, cmd.now), l);
    HiredForChanges(db, cmd.offer, cmd.key, cmd.now, l);
    AnswerLocks(db, cmd, r, l);
  }

  lemma LateLocked(db: Db, cmd: Command, r: Rows, l: Lock)
    requires Inv(db) && LateAnswer(db, cmd) && Finds(db, cmd, r) && Changed(db, Step(db, cmd), l)
    ensures Locked(Locks(cmd, r), l)
  {
    hide Inv, Step, Answer, Ended, Changed, Finds, Locks, Locked;
    LateOutcome(db, cmd);
    ChangedSame(db, Step(db, cmd), Ended(db, cmd.offer, Expired, Lapsed), l);
    EndedChanges(db, cmd.offer, Expired, Lapsed, l);
    AnswerLocks(db, cmd, r, l);
  }

  /** An offer ended, a step of its Trip, and a search. */
  lemma ReassignChanges(
      db: Db, o: Id, status: OfferStatus, reservation: ReservationStatus, act: Act, who: Option<Id>, told: EventKind, db': Db,
      now: Time, found: seq<R.Candidate>, last: Act, actor: Option<Id>, l: Lock)
    requires OfferRows(db.core, o) && Known(db, db.core.offers[o].job) && IdsOk(db.core)
    requires Known(Ended(db, o, status, reservation), db.core.offers[o].job)
    requires var f := db.core.offers[o];
             var db1 := Stepped(Ended(db, o, status, reservation), f.job, Matching, act, who, told, None, {f.driver});
             Known(db1, f.job)
             && Outcomes.SearchEnds(db, db1, db', f.job, Some(f.driver), now, found, OfferReassigned, last, actor)
    requires Changed(db, db', l)
    ensures l in OfferRowLocks(db.core, o) || exists x :: x in found && l == Lock(WorkLock, x.driver)
  {
    hide Stepped, Ended, Changed, IdsOk, Outcomes.SearchEnds;
    var f, ended := db.core.offers[o], Ended(db, o, status, reservation);
    var db1 := Stepped(ended, f.job, Matching, act, who, told, None, {f.driver});
    EndedIds(db, o, status, reservation);
    SteppedIds(ended, f.job, Matching, act, who, told, None, {f.driver});
    ChangedThen(db, db1, db', l);
    if Changed(db, db1, l) {
      ChangedThen(db, ended, db1, l);
      if Changed(db, ended, l) {
        EndedChanges(db, o, status, reservation, l);
      } else {
        SteppedChanges(ended, f.job, Matching, act, who, told, None, {f.driver}, l);
      }
    } else {
      SearchChanges(db, db1, db', f.job, Some(f.driver), now, found, OfferReassigned, last, actor, l);
    }
  }

  lemma ReassignLocked(db: Db, cmd: Command, r: Rows, l: Lock)
    requires Inv(db) && (cmd.RejectTrip? || cmd.SweepTrip?) && Unused(db, cmd) && Answer(db, cmd).Ok? && Finds(db, cmd, r)
    requires Changed(db, Step(db, cmd), l)
    ensures Locked(Locks(cmd, r), l)
  {
    hide Inv, Step, Answer, Stepped, Ended, Outcomes.SearchEnds, Changed, Finds, Locks, IdsOk, Locked;
    IdsBelow(db);
    if cmd.RejectTrip? {
      RejectOutcome(db, cmd);
      EndedKnown(db, cmd.offer);
      ReassignChanges(db, cmd.offer, Rejected, Released, Act.RejectOffer, Some(db.core.offers[cmd.offer].driver), OfferRejected,
                      Step(db, cmd), cmd.now, cmd.found, ExhaustAfterReject, Some(cmd.driver), l);
    } else {
      SweepOutcome(db, cmd);
      if Step(db, cmd) == db { Unmoved(db, l); }
      EndedKnown(db, cmd.offer);
      ReassignChanges(db, cmd.offer, Expired, Lapsed, Act.ExpireOffer, None, OfferExpired, Step(db, cmd), cmd.now, cmd.found,
                      ExpireNoReassignment, None, l);
    }
    if l in OfferRowLocks(db.core, cmd.offer) {
      AnswerLocks(db, cmd, r, l);
    } else {
      var x :| x in cmd.found && l == Lock(WorkLock, x.driver);
      FoundLocked(db, cmd, r, x);
    }
  }

  lemma DrivesLocked(db: Db, cmd: Command, r: Rows, a: Id, l: Lock)
    requires cmd.DriveTrip? || cmd.DriveDelivery?
    requires Finds(db, cmd, r) && a in db.core.assignments && db.core.assignments[a].driver == cmd.driver
    requires db.core.assignments[a].job == if cmd.DriveTrip? then Trip(cmd.id) else Delivery(cmd.id)
    requires var g := db.core.assignments[a]; l in {LockOf(g.job), Lock(AssignmentLock, a), Lock(WorkLock, g.driver)}
    ensures Locked(Locks(cmd, r), l)
  {
    assert a in AssignmentsOf(db.core, db.core.assignments[a].job, cmd.driver);
    var p := Locks(cmd, r);
    assert p[2].lock == LockOf(db.core.assignments[a].job);
    assert p[3].lock == Lock(AssignmentLock, a) && p[4].lock == Lock(WorkLock, cmd.driver);
  }

  lemma DriveTripLocked(db: Db, cmd: Command, r: Rows, l: Lock)
    requires Inv(db) && cmd.DriveTrip? && Unused(db, cmd) && Answer(db, cmd).Ok? && Finds(db, cmd, r)
    requires Changed(db, Step(db, cmd), l)
    ensures Locked(Locks(cmd, r), l)
  {
    hide Inv, Step, Answer, Driven, Over, Changed, Finds, Locks, Locked, Fare.Price;
    var a := DriveTripOutcome(db, cmd);
    var g := db.core.assignments[a];
    var row := db.core.jobs[g.job];
    match cmd.action {
    case ArriveAtPickup =>
      ChangedSame(db, Step(db, cmd), Driven(db, a, AtPickup, ToPickup, g.custody, Arrive, DriverArrived), l);
      DrivenChanges(db, a, AtPickup, ToPickup, g.custody, Arrive, DriverArrived, l);
    case StartJob =>
      ChangedSame(db, Step(db, cmd), Driven(db, a, InProgress, OnTrip, g.custody, Start, Started), l);
      DrivenChanges(db, a, InProgress, OnTrip, g.custody, Start, Started, l);
    case CompleteJob =>
      var m := Fare.Metering(cmd.distance.value, cmd.duration.value, row.ride.surge);
      var ride := Ride(row.ride.quote, row.ride.rules, row.ride.surge, row.ride.quotedTotal, Some(m),
                       Some(Fare.Price(m, row.ride.rules).value.total));
      ChangedSame(db, Step(db, cmd), Over(db, a, Done, Completed, ride, Complete, g.driver, CompletedEvent), l);
      OverChanges(db, a, Done, Completed, ride, Complete, g.driver, CompletedEvent, l);
    }
    DrivesLocked(db, cmd, r, a, l);
  }

  lemma DriveDeliveryLocked(db: Db, cmd: Command, r: Rows, l: Lock)
    requires Inv(db) && cmd.DriveDelivery? && Unused(db, cmd) && Answer(db, cmd).Ok? && Finds(db, cmd, r)
    requires Changed(db, Step(db, cmd), l)
    ensures Locked(Locks(cmd, r), l)
  {
    hide Inv, Step, Answer, Driven, Over, HandedOver, Changed, Finds, Locks, Locked;
    var a := DriveDeliveryOutcome(db, cmd);
    var g := db.core.assignments[a];
    match cmd.action {
    case ArriveAtPickup =>
      ChangedSame(db, Step(db, cmd), Driven(db, a, AtPickup, ToPickup, g.custody, Arrive, DriverArrived), l);
      DrivenChanges(db, a, AtPickup, ToPickup, g.custody, Arrive, DriverArrived, l);
    case StartJob =>
      var custody := if g.custody.None? then Some(cmd.confirmation) else g.custody;
      ChangedSame(db, Step(db, cmd), Driven(db, a, InProgress, OnTrip, custody, Start, Started), l);
      DrivenChanges(db, a, InProgress, OnTrip, custody, Start, Started, l);
    case CompleteJob =>
      var over := Over(db, a, Done, Completed, Parcel, Complete, g.driver, CompletedEvent);
      ChangedSame(db, Step(db, cmd), HandedOver(over, Proof(g.job, a, g.driver, cmd.confirmation)), l);
      HandedOverChanges(db, over, Proof(g.job, a, g.driver, cmd.confirmation), l);
      OverChanges(db, a, Done, Completed, Parcel, Complete, g.driver, CompletedEvent, l);
    }
    DrivesLocked(db, cmd, r, a, l);
  }

  lemma StartDeliveryLocked(db: Db, cmd: Command, r: Rows, l: Lock)
    requires Inv(db) && cmd.StartDelivery? && Unused(db, cmd) && Answer(db, cmd).Ok? && Finds(db, cmd, r)
    requires Changed(db, Step(db, cmd), l)
    ensures Locked(Locks(cmd, r), l)
  {
    hide Inv, Step, Answer, Stepped, AskedFor, Changed, Finds, Locks, IdsOk, Locked, NoneAvailable;
    var j, actor := Delivery(cmd.id), Some(cmd.customer);
    StartDeliveryOutcome(db, cmd);
    IdsBelow(db);
    var db1 := AfterStart(db, j, actor);
    SteppedIds(db, j, Matching, StartMatching, actor, MatchingStarted, Some(Matching), {});
    ChangedThen(db, db1, Step(db, cmd), l);
    if Changed(db, db1, l) {
      SteppedChanges(db, j, Matching, StartMatching, actor, MatchingStarted, Some(Matching), {}, l);
      JobLocked(cmd, r, l);
    } else if k: nat :| FirstAvailable(db.core, cmd.found, k) && AsksFirst(db1, Step(db, cmd), j, cmd.found[k].driver, cmd.now) {
      ChangedSame(db1, Step(db, cmd), AskedFor(db1, j, cmd.found[k].driver, cmd.now, 1, OfferCreated), l);
      AskedForChanges(db1, j, cmd.found[k].driver, cmd.now, 1, OfferCreated, l);
      FoundLocked(db, cmd, r, cmd.found[k]);
    } else {
      ChangedSame(db1, Step(db, cmd), GivenUp(db1, j, ExhaustMatching, None), l);
      SteppedChanges(db1, j, NoDriverAvailable, ExhaustMatching, None, NoDriverEvent, Some(NoDriverAvailable), {}, l);
      JobLocked(cmd, r, l);
    }
  }

  lemma AcceptDeliveryLocked(db: Db, cmd: Command, r: Rows, l: Lock)
    requires Inv(db) && cmd.AcceptDelivery? && Finds(db, cmd, r) && Changed(db, Step(db, cmd), l)
    ensures Locked(Locks(cmd, r), l)
  {
    hide Inv, Step, Answer, HiredFor, Changed, Finds, Locks, IdsOk, Locked;
    AcceptDeliveryOutcome(db, cmd);
    IdsBelow(db);
    Unmoved(db, l);
    ChangedSame(db, Step(db, cmd), HiredFor(db, cmd.offer, cmd.key, cmd.now), l);
    HiredForChanges(db, cmd.offer, cmd.key, cmd.now, l);
    AnswerLocks(db, cmd, r, l);
  }

  lemma SweepDeliveryLocked(db: Db, cmd: Command, r: Rows, l: Lock)
    requires Inv(db) && cmd.SweepDelivery? && Finds(db, cmd, r) && Changed(db, Step(db, cmd), l)
    ensures Locked(Locks(cmd, r), l)
  {
    hide Inv, Step, Answer, Stepped, Ended, Changed, Finds, Locks, Locked;
    SweepDeliveryOutcome(db, cmd);
    Unmoved(db, l);
    var ended, j := Ended(db, cmd.offer, Expired, Lapsed), db.core.offers[cmd.offer].job;
    ChangedSame(db, Step(db, cmd), GivenUp(ended, j, ExpireNoReassignment, None), l);
    ChangedThen(db, ended, GivenUp(ended, j, ExpireNoReassignment, None), l);
    if Changed(db, ended, l) {
      EndedChanges(db, cmd.offer, Expired, Lapsed, l);
    } else {
      SteppedChanges(ended, j, NoDriverAvailable, ExpireNoReassignment, None, NoDriverEvent, Some(NoDriverAvailable), {}, l);
    }
    AnswerLocks(db, cmd, r, l);
  }

  /** The cancellation's loop locks each offer's reservation and Driver. */
  lemma {:induction false} RevokesLock(reservations: seq<Id>, drivers: seq<Id>, i: nat)
    requires i < |reservations| == |drivers|
    ensures Locked(RevokeLocks(reservations, drivers), Lock(ReservationLock, reservations[i]))
    ensures Locked(RevokeLocks(reservations, drivers), Lock(WorkLock, drivers[i]))
    decreases i
  {
    var first := [Await(Lock(ReservationLock, reservations[0])), Await(Lock(WorkLock, drivers[0]))];
    var rest := RevokeLocks(reservations[1..], drivers[1..]);
    if i == 0 {
      assert first[0].lock == Lock(ReservationLock, reservations[0]) && first[1].lock == Lock(WorkLock, drivers[0]);
    } else {
      RevokesLock(reservations[1..], drivers[1..], i - 1);
    }
    LockedIn(first, rest, Lock(ReservationLock, reservations[i]));
    LockedIn(first, rest, Lock(WorkLock, drivers[i]));
  }

  lemma {:induction false} AwaitsLock(kind: Kind, ids: seq<Id>, i: nat)
    requires i < |ids|
    ensures Locked(AwaitAll(kind, ids), Lock(kind, ids[i]))
    decreases i
  {
    var first := [Await(Lock(kind, ids[0]))];
    if i == 0 {
      assert first[0].lock == Lock(kind, ids[0]);
    } else {
      AwaitsLock(kind, ids[1..], i - 1);
    }
    LockedIn(first, AwaitAll(kind, ids[1..]), Lock(kind, ids[i]));
  }

  lemma RevokedLocked(db: Db, cmd: Command, r: Rows, o: Id, l: Lock)
    requires cmd.CancelTrip? && Finds(db, cmd, r) && o in PendingOffers(db.core, Trip(cmd.id))
    requires l in OfferRowLocks(db.core, o)
    ensures Locked(Locks(cmd, r), l)
  {
    if l == LockOf(Trip(cmd.id)) {
      JobLocked(cmd, r, l);
    } else {
      assert multiset(PendingOffers(db.core, Trip(cmd.id)))[o] > 0;
      var i :| 0 <= i < |r.offers| && r.offers[i] == o;
      AwaitsLock(OfferLock, r.offers, i);
      RevokesLock(r.reservations, r.drivers, i);
      var begun, awaits, revokes := Receipts(r) + [Await(Lock(TripLock, cmd.id))], AwaitAll(OfferLock, r.offers),
                                    RevokeLocks(r.reservations, r.drivers);
      LockedIn(awaits, revokes, l);
      LockedIn(begun, awaits + revokes, l);
    }
  }

  lemma DroppedLocked(db: Db, cmd: Command, r: Rows, a: Id, l: Lock)
    requires cmd.CancelTrip? && Finds(db, cmd, r) && r.offers == []
    requires a in db.core.assignments && db.core.assignments[a].job == Trip(cmd.id) && db.core.assignments[a].status.Working?
    requires l in {LockOf(Trip(cmd.id)), Lock(AssignmentLock, a), Lock(WorkLock, db.core.assignments[a].driver)}
    ensures Locked(Locks(cmd, r), l)
  {
    assert r.assignment == a && r.drivers == [db.core.assignments[a].driver];
    var p := Locks(cmd, r);
    assert p[2].lock == LockOf(Trip(cmd.id)) && p[3].lock == Lock(AssignmentLock, a) && p[4].lock == Lock(WorkLock, r.drivers[0]);
  }

  /** A Trip with a Driver at work has no pending offer. */
  lemma NoOffersLeft(db: Db, cmd: Command, r: Rows, a: Id)
    requires Inv(db) && cmd.CancelTrip? && Finds(db, cmd, r)
    requires a in db.core.assignments && db.core.assignments[a].status.Working? && db.core.assignments[a].job == Trip(cmd.id)
    ensures r.offers == []
  {
    hide Inv, Linked, Logged, Settled;
    var ix := Witness(db);
    WorkingFacts(db.core, ix, a);
    if r.offers != [] {
      assert multiset(r.offers)[r.offers[0]] > 0;
      PendingFacts(db.core, ix, r.offers[0]);
    }
  }

  lemma CancelLocked(db: Db, cmd: Command, r: Rows, l: Lock)
    requires Inv(db) && cmd.CancelTrip? && Unused(db, cmd) && Answer(db, cmd).Ok? && Finds(db, cmd, r)
    requires Changed(db, Step(db, cmd), l)
    ensures Locked(Locks(cmd, r), l)
  {
    hide Inv, Step, Answer, Stepped, Ended, Over, Changed, Finds, Locks, Locked, Awaiting;
    var held := CancelOutcome(db, cmd);
    var j := Trip(cmd.id);
    match held
    case NoDriver =>
      ChangedSame(db, Step(db, cmd), CancelledBy(db, j, {}), l);
      SteppedChanges(db, j, Cancelled, Cancel, Some(db.core.jobs[j].customer), CancelledEvent, Some(Cancelled), {}, l);
      JobLocked(cmd, r, l);
    case OfferHeld(o) =>
      var ended, drivers := Ended(db, o, Revoked, Released), {db.core.offers[o].driver};
      ChangedSame(db, Step(db, cmd), CancelledBy(ended, j, drivers), l);
      ChangedThen(db, ended, CancelledBy(ended, j, drivers), l);
      if Changed(db, ended, l) {
        EndedChanges(db, o, Revoked, Released, l);
      } else {
        SteppedChanges(ended, j, Cancelled, Cancel, Some(ended.core.jobs[j].customer), CancelledEvent, Some(Cancelled), drivers, l);
      }
      RevokedLocked(db, cmd, r, o, l);
    case AssignmentHeld(a) =>
      ChangedSame(db, Step(db, cmd), Over(db, a, Dropped, Cancelled, db.core.jobs[j].ride, Cancel, cmd.customer, CancelledEvent), l);
      OverChanges(db, a, Dropped, Cancelled, db.core.jobs[j].ride, Cancel, cmd.customer, CancelledEvent, l);
      NoOffersLeft(db, cmd, r, a);
      DroppedLocked(db, cmd, r, a, l);
  }

  // ---- All commands

  function DriversOf(found: seq<R.Candidate>): (drivers: seq<Id>)
    ensures forall x | x in found :: x.driver in drivers
  {
    if found == [] then [] else [found[0].driver] + DriversOf(found[1..])
  }

  /** The rows of one offer, and no others. */
  function RowsOf(c: Core, o: Id, found: seq<R.Candidate>): Rows {
    var f := if o in c.offers then c.offers[o] else Offer(Trip(0), 0, 0, 0, Pending, 0, None, None);
    Rows(0, 0, None, f.job.id, [o], [f.reservation], [f.driver], 0, DriversOf(found), None)
  }

  /** In every database there are rows that a command's queries answer. */
  lemma FindsSome(db: Db, cmd: Command) returns (r: Rows)
    requires Inv(db)
    ensures Finds(db, cmd, r)
  {
    hide Inv;
    match cmd
    case DriveTrip(d, id, _, _, _, _, _) => r := AssignmentRow(db, Trip(id), d);
    case DriveDelivery(d, id, _, _, _, _) => r := AssignmentRow(db, Delivery(id), d);
    case CancelTrip(_, id, _, _) => r := CancelRows(db, Trip(id));
    case AcceptTrip(_, o, _, _, _) => r := RowsOf(db.core, o, []);
    case AcceptDelivery(_, o, _, _) => r := RowsOf(db.core, o, []);
    case SweepDelivery(o, _, _) => r := RowsOf(db.core, o, []);
    case RejectTrip(_, o, _, _, _, found) => r := RowsOf(db.core, o, found);
    case SweepTrip(o, _, _, found) => r := RowsOf(db.core, o, found);
    case StartTrip(_, _, _, _, _, found) => r := RowsOf(db.core, 0, found);
    case StartDelivery(_, _, _, _, _, found) => r := RowsOf(db.core, 0, found);
    case _ => r := RowsOf(db.core, 0, []);
  }

  lemma AssignmentRow(db: Db, j: Job, d: Id) returns (r: Rows)
    requires Inv(db)
    ensures forall a | a in AssignmentsOf(db.core, j, d) :: r.assignment == a
  {
    hide Inv, Sound;
    var ix := Witness(db);
    InvJoined(db);
    AssignedSole(db, ix, j, d);
    r := RowsOf(db.core, 0, []);
    if b :| b in AssignmentsOf(db.core, j, d) { r := r.(assignment := b); }
  }

  lemma CancelRows(db: Db, j: Job) returns (r: Rows)
    requires Inv(db)
    ensures Cancels(db.core, j, r)
  {
    hide Inv, Linked, Logged, Settled;
    var ix := Witness(db);
    r := RowsOf(db.core, 0, []).(offers := [], reservations := [], drivers := []);
    if o :| o in PendingOffers(db.core, j) {
      PendingFacts(db.core, ix, o);
      forall p | p in PendingOffers(db.core, j) ensures p == o { PendingFacts(db.core, ix, p); }
      assert PendingOffers(db.core, j) == {o};
      r := RowsOf(db.core, o, []);
    } else {
      assert PendingOffers(db.core, j) == {};
      if a :| a in db.core.assignments && db.core.assignments[a].job == j && db.core.assignments[a].status.Working? {
        WorkingFacts(db.core, ix, a);
        r := r.(assignment := a, drivers := [db.core.assignments[a].driver]);
      }
    }
  }

  lemma FoundMet(db: Db, cmd: Command, r: Rows)
    requires Finds(db, cmd, r)
    ensures Meets(db, cmd, r)
  {
  }

  /**
   * Every row that a command's transaction leaves different is among its locks, whatever rows of each table
   * its queries find.
   */
  lemma WritesAreLocked(db: Db, cmd: Command, r: Rows, l: Lock)
    requires Inv(db) && Finds(db, cmd, r) && Changed(db, Step(db, cmd), l)
    ensures Meets(db, cmd, r) && Locked(Locks(cmd, r), l)
  {
    hide Inv, Step, Answer, Changed, Finds, Locks, Locked, Unused, LateAnswer;
    FoundMet(db, cmd, r);
    ReceiptsSame(db, cmd);
    Unmoved(db, l);
    match cmd
    case SetWork(_, _, _) => WorkLocked(db, cmd, r, l);
    case IssueQuote(_, _, _, _) => QuoteUnmoved(db, cmd, l);
    case CreateTrip(_, _, _, _, _) => CreateTripLocked(db, cmd, r, l);
    case StartTrip(_, _, _, _, _, _) => StartTripLocked(db, cmd, r, l);
    case AcceptTrip(_, _, _, _, _) => if LateAnswer(db, cmd) { LateLocked(db, cmd, r, l); } else { AcceptTripLocked(db, cmd, r, l); }
    case RejectTrip(_, _, _, _, _, _) => if LateAnswer(db, cmd) { LateLocked(db, cmd, r, l); } else { ReassignLocked(db, cmd, r, l); }
    case SweepTrip(_, _, _, _) => ReassignLocked(db, cmd, r, l);
    case DriveTrip(_, _, _, _, _, _, _) => DriveTripLocked(db, cmd, r, l);
    case CancelTrip(_, _, _, _) => CancelLocked(db, cmd, r, l);
    case CreateDelivery(_, _, _) => CreateDeliveryUnmoved(db, cmd, l);
    case StartDelivery(_, _, _, _, _, _) => StartDeliveryLocked(db, cmd, r, l);
    case AcceptDelivery(_, _, _, _) => AcceptDeliveryLocked(db, cmd, r, l);
    case DriveDelivery(_, _, _, _, _, _) => DriveDeliveryLocked(db, cmd, r, l);
    case SweepDelivery(_, _, _) => SweepDeliveryLocked(db, cmd, r, l);
    case Capture(_, _, _, _, _) => CaptureUnmoved(db, cmd, l);
  }
}
