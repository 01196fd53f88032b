/**
 * Each transaction as a function from the database before it to the database after it and how
 * it ended. The repositories' methods are proved to compute exactly these.
 */
module Commands {
  import opened Basics
  import opened Fare
  import opened Tables
  import opened Events
  import opened Steps
  import opened Ranking
  import opened Queries

  datatype Command =
    | SetWork(driver: Id, available: bool, eligible: bool)
    | IssueQuote(customer: Id, estimate: Metering<int>, rules: Rules<int>, expiresAt: Time)
    | CreateTrip(customer: Id, quote: Id, key: Id, fingerprint: Id, now: Time)
    | StartTrip(customer: Id, id: Id, key: Id, fingerprint: Id, now: Time, found: seq<Candidate>)
    | AcceptTrip(driver: Id, offer: Id, key: Id, fingerprint: Id, now: Time)
    | RejectTrip(driver: Id, offer: Id, key: Id, fingerprint: Id, now: Time, found: seq<Candidate>)
    | SweepTrip(offer: Id, locked: bool, now: Time, found: seq<Candidate>)
    | DriveTrip(driver: Id, id: Id, action: Action, key: Id, fingerprint: Id,
                distance: Option<int>, duration: Option<int>)
    | CancelTrip(customer: Id, id: Id, key: Id, fingerprint: Id)
    | CreateDelivery(customer: Id, key: Id, fingerprint: Id)
    | StartDelivery(customer: Id, id: Id, key: Id, fingerprint: Id, now: Time, found: seq<Candidate>)
    | AcceptDelivery(driver: Id, offer: Id, key: Id, now: Time)
    | DriveDelivery(driver: Id, id: Id, action: Action, key: Id, fingerprint: Id, confirmation: string)
    | SweepDelivery(offer: Id, locked: bool, now: Time)
    | Capture(customer: Id, id: Id, key: Id, fingerprint: Id, status: PaymentStatus)

  /** Foreign keys: what a row names is present. */
  ghost predicate Joined(db: Db) {
    && (forall j | j in db.core.jobs :: Known(db, j) && (j.Trip? ==> db.core.jobs[j].ride.Ride?))
    && (forall o | o in db.core.offers :: OfferRows(db.core, o) && db.core.offers[o].job in db.core.jobs)
    && (forall a | a in db.core.assignments :: AssignmentRows(db.core, a))
  }

  /** A Driver goes on or off duty (dispatch.repository.ts, setWorkState). */
  ghost function DoSetWork(db: Db, d: Id, available: bool, eligible: bool): (Db, Outcome) {
    if available && !eligible then (db, Thrown(DriverNotEligible))
    else if d in db.core.work && !db.core.work[d].state.Offline? && !db.core.work[d].state.Available?
    then (db, Thrown(WorkStateConflict))
    else
      var db' := db.(core := Duty(db.core, d, if available then Available else Offline));
      (db', Ok(WorkResponse(d, db'.core.work[d].state, db'.core.work[d].version)))
  }

  ghost function DoIssueQuote(db: Db, customer: Id, estimate: Metering<int>, rules: Rules<int>, expiresAt: Time)
    : (Db, Outcome) {
    var price := Price(estimate, rules);
    if price.None? then (db, Thrown(PricingInvalid)) else
    var q := Quote(customer, estimate, rules, price.value.appliedSurgeBps, price.value.total, QuoteActive, expiresAt);
    (db.(core := db.core.(nextId := db.core.nextId + 1),
         books := db.books.(quotes := db.books.quotes[db.core.nextId := q])),
     Ok(QuoteResponse(db.core.nextId, q.total)))
  }

  function TripRow(customer: Id, quote: Id, q: Quote): JobRow {
    JobRow(customer, Requested, 0, Ride(quote, q.rules, q.surge, q.total, None, None))
  }

  /** A Trip is created from an active quote, which is consumed. */
  function Book(db: Db, customer: Id, quote: Id): Db
    requires quote in db.books.quotes
  {
    var q := db.books.quotes[quote];
    Enter(db, Trip(db.core.nextId), TripRow(customer, quote, q))
      .(books := db.books.(quotes := db.books.quotes[quote := q.(status := Consumed)]))
  }

  ghost function DoCreateTrip(db: Db, customer: Id, quote: Id, now: Time): (Db, Outcome) {
    if quote !in db.books.quotes || db.books.quotes[quote].customer != customer then (db, Thrown(QuoteNotFound))
    else
      var q := db.books.quotes[quote];
      if q.status.QuoteActive? && q.expiresAt <= now then (db, Thrown(QuoteIsExpired))
      else if q.status.QuoteExpired? then (db, Thrown(QuoteIsExpired))
      else if !q.status.QuoteActive? then (db, Thrown(QuoteAlreadyConsumed))
      else if HasActiveTrip(db.core, customer) then (db, Thrown(ActiveTripExists))
      else (Book(db, customer, quote), Ok(JobResponse(Trip(db.core.nextId), Requested, 0, None, None, None)))
  }

  datatype Reserving = RankingFails | Clash | Nobody | Chosen(driver: Id)

  /** Whom reserveNextOffer offers the Trip to. */
  ghost function NextDriver(db: Db, j: Job, excluded: Option<Id>, found: seq<Candidate>, kind: EventKind): Reserving
    requires Known(db, j)
  {
    if MaxAttempt(db.core, j) + 1 > MAX_OFFER_ATTEMPTS then Nobody else
    var ranked := Rank(Candidates(db.core, j, excluded, found), LOCATION_FRESHNESS_SECONDS);
    if ranked.None? then RankingFails else
    var first := FirstClaim(ranked.value);
    if first.None? then Nobody
    else if !Untold(db.journal.outbox[j], db.core.jobs[j].version, kind) then Clash
    else Chosen(first.value)
  }

  /** Nobody is left to ask. */
  function Exhaust(db: Db, j: Job, act: Act, actor: Option<Id>): Db
    requires Known(db, j)
  {
    Advance(db, j, NoDriverAvailable, act, actor, NoDriverEvent, Some(NoDriverAvailable), {})
  }

  function OfferNext(db: Db, j: Job, d: Id, now: Time, attempt: nat, kind: EventKind): Db
    requires Known(db, j) && d in db.core.work
  {
    Propose(db, j, d, now + OFFER_TTL_MS, attempt, kind)
  }

  /** The search for a Driver ends in an offer or in exhaustion; None when the transaction is rolled back. */
  ghost function Search(
      db: Db, j: Job, excluded: Option<Id>, now: Time, found: seq<Candidate>, kind: EventKind, act: Act,
      actor: Option<Id>): Option<(Db, Option<Id>)>
    requires Known(db, j)
  {
    match NextDriver(db, j, excluded, found, kind)
    case RankingFails => None
    case Clash => None
    case Nobody => Some((Exhaust(db, j, act, actor), None))
    case Chosen(d) =>
      if d !in db.core.work then None
      else Some((OfferNext(db, j, d, now, MaxAttempt(db.core, j) + 1, kind), Some(db.core.nextId + 1)))
  }

  function Failure(r: Reserving): Code {
    if r.Clash? then UniqueViolation else RankingInvalid
  }

  /** REQUESTED to MATCHING. */
  function BeginMatching(db: Db, j: Job, actor: Option<Id>): Db
    requires Known(db, j)
  {
    Advance(db, j, Matching, StartMatching, actor, MatchingStarted, Some(Matching), {})
  }

  ghost function DoStartTrip(db: Db, customer: Id, id: Id, now: Time, found: seq<Candidate>): (Db, Outcome)
    requires Joined(db)
  {
    var j := Trip(id);
    if j !in db.core.jobs || db.core.jobs[j].customer != customer then (db, Thrown(TripNotFound))
    else if !db.core.jobs[j].state.Requested? && !db.core.jobs[j].state.Matching? then (db, Thrown(TripNotMatchable))
    else
      var db1 := if db.core.jobs[j].state.Requested? then BeginMatching(db, j, None) else db;
      var pending := PendingOffer(db1.core, j);
      if pending.Some? then (db1, Ok(Matched(db1, j, pending)))
      else
        var searched := Search(db1, j, None, now, found, OfferCreated, ExhaustMatching, None);
        if searched.None? then (db, Thrown(Failure(NextDriver(db1, j, None, found, OfferCreated))))
        else (searched.value.0, Ok(Matched(searched.value.0, j, searched.value.1)))
  }

  ghost function Matched(db: Db, j: Job, offer: Option<Id>): Response {
    if j !in db.core.jobs then MatchResponse(j, Requested, 0, None) else
    MatchResponse(j, db.core.jobs[j].state, db.core.jobs[j].version,
                  if offer.Some? && offer.value in db.core.offers && db.core.offers[offer.value].job in db.core.jobs
                  then Some(ViewOf(db.core, offer.value)) else None)
  }

  /** A pending offer expires. */
  function Expire(db: Db, o: Id): Db
    requires OfferRows(db.core, o)
  {
    Drop(db, o, Expired, Lapsed)
  }

  ghost function DoAcceptTrip(db: Db, d: Id, o: Id, key: Id, now: Time): (Db, Outcome)
    requires Joined(db)
  {
    if o !in db.core.offers || !db.core.offers[o].job.Trip? then (db, Thrown(OfferNotFound))
    else if db.core.offers[o].driver != d then (db, Thrown(OfferNotForDriver))
    else if !db.core.offers[o].status.Pending? then (db, Declined(OfferAlreadyResolved))
    else if db.core.offers[o].expiresAt <= now then (Expire(db, o), Declined(OfferIsExpired))
    else var db' := Hire(db, o, key, now); (db', Ok(OfferResponse(ViewOf(db'.core, o))))
  }

  /** A pending offer is rejected and the Trip stays in MATCHING one version on. */
  function Refuse(db: Db, o: Id): Db
    requires OfferRows(db.core, o) && Known(db, db.core.offers[o].job)
  {
    var f := db.core.offers[o];
    Advance(Drop(db, o, Rejected, Released), f.job, Matching, RejectOffer, Some(f.driver), OfferRejected, None, {f.driver})
  }

  ghost function DoRejectTrip(db: Db, d: Id, o: Id, now: Time, found: seq<Candidate>): (Db, Outcome)
    requires Joined(db)
  {
    if o !in db.core.offers || !db.core.offers[o].job.Trip? then (db, Thrown(OfferNotFound))
    else if db.core.offers[o].driver != d then (db, Thrown(OfferNotForDriver))
    else if !db.core.offers[o].status.Pending? then (db, Declined(OfferAlreadyResolved))
    else if db.core.offers[o].expiresAt <= now then (Expire(db, o), Declined(OfferIsExpired))
    else
      var db1, j := Refuse(db, o), db.core.offers[o].job;
      var searched := Search(db1, j, Some(d), now, found, OfferReassigned, ExhaustAfterReject, Some(d));
      if searched.None? then (db, Thrown(Failure(NextDriver(db1, j, Some(d), found, OfferReassigned))))
      else (searched.value.0, Ok(Refused(searched.value.0, o, searched.value.1)))
  }

  ghost function Refused(db: Db, o: Id, offer: Option<Id>): Response
  {
    if o !in db.core.offers || db.core.offers[o].job !in db.core.jobs then SweepResponse(false) else
    RejectionResponse(ViewOf(db.core, o),
                      if offer.Some? && offer.value in db.core.offers && db.core.offers[offer.value].job in db.core.jobs
                      then Some(ViewOf(db.core, offer.value)) else None)
  }

  /** A due offer is swept and the Trip stays in MATCHING one version on. */
  function Lapse(db: Db, o: Id): Db
    requires OfferRows(db.core, o) && Known(db, db.core.offers[o].job)
  {
    var f := db.core.offers[o];
    Advance(Expire(db, o), f.job, Matching, ExpireOffer, None, OfferExpired, None, {f.driver})
  }

  ghost function DoSweepTrip(db: Db, o: Id, locked: bool, now: Time, found: seq<Candidate>): (Db, Outcome)
    requires Joined(db)
  {
    if o !in db.core.offers || !db.core.offers[o].job.Trip? || !db.core.offers[o].status.Pending?
       || now < db.core.offers[o].expiresAt || locked
    then (db, Ok(SweepResponse(false)))
    else
      var db1, j, d := Lapse(db, o), db.core.offers[o].job, db.core.offers[o].driver;
      var searched := Search(db1, j, Some(d), now, found, OfferReassigned, ExpireNoReassignment, None);
      if searched.None? then (db, Thrown(Failure(NextDriver(db1, j, Some(d), found, OfferReassigned))))
      else (searched.value.0, Ok(SweepResponse(true)))
  }

  /** The assigned Driver's step is in order. */
  predicate InOrder(c: Core, a: Id, action: Action)
    requires AssignmentRows(c, a)
  {
    && c.assignments[a].status.Working?
    && c.jobs[c.assignments[a].job].state == TransitionPolicy(action).from
    && c.work[c.assignments[a].driver].state == TransitionPolicy(action).workFrom
  }

  predicate PositiveSafe(n: Option<int>) {
    n.Some? && Safe(n.value) && n.value > 0
  }

  function Reply(c: Core, j: Job, d: Id): Response {
    if j !in c.jobs then SweepResponse(false)
    else if c.jobs[j].ride.Ride?
    then JobResponse(j, c.jobs[j].state, c.jobs[j].version, Some(d), c.jobs[j].ride.metering, c.jobs[j].ride.finalFare)
    else JobResponse(j, c.jobs[j].state, c.jobs[j].version, Some(d), None, None)
  }

  /** The step of a Trip's assignment that is in order. */
  function DriveTripOn(db: Db, a: Id, action: Action, distance: Option<int>, duration: Option<int>): (Db, Outcome)
    requires AssignmentRows(db.core, a) && Known(db, db.core.assignments[a].job)
    requires db.core.jobs[db.core.assignments[a].job].ride.Ride?
  {
    var g, p := db.core.assignments[a], TransitionPolicy(action);
    if !action.CompleteJob? then
      var db' := Drive(db, a, p.to, p.workTo, g.custody, p.act, p.kind);
      (db', Ok(Reply(db'.core, g.job, g.driver)))
    else if !PositiveSafe(distance) || !PositiveSafe(duration) then (db, Thrown(MeteringInvalid))
    else
      var ride := db.core.jobs[g.job].ride;
      var metering := Metering(distance.value, duration.value, ride.surge);
      var price := Price(metering, ride.rules);
      if price.None? then (db, Thrown(SnapshotInvalid))
      else
        var db' := Finish(db, a, Done, Completed,
                          ride.(metering := Some(metering), finalFare := Some(price.value.total)),
                          None, Complete, g.driver, CompletedEvent);
        (db', Ok(Reply(db'.core, g.job, g.driver)))
  }

  ghost function DoDriveTrip(
      db: Db, d: Id, id: Id, action: Action, distance: Option<int>, duration: Option<int>): (Db, Outcome)
    requires Joined(db)
  {
    var j := Trip(id);
    var found := AssignmentOf(db.core, j, d);
    if found.None? then (db, Thrown(if j in db.core.jobs then NotAssigned else TripNotFound))
    else if !InOrder(db.core, found.value, action) then (db, Thrown(InvalidState))
    else DriveTripOn(db, found.value, action, distance, duration)
  }

  /** A Trip that nobody works on is cancelled by its Customer. */
  function Cancelling(db: Db, j: Job, drivers: set<Id>): Db
    requires Known(db, j)
  {
    Advance(db, j, Cancelled, Cancel, Some(db.core.jobs[j].customer), CancelledEvent, Some(Cancelled), drivers)
  }

  ghost function DoCancelTrip(db: Db, customer: Id, id: Id): (Db, Outcome)
    requires Joined(db)
  {
    var j := Trip(id);
    if j !in db.core.jobs || db.core.jobs[j].customer != customer then (db, Thrown(TripNotFound))
    else
      var row := db.core.jobs[j];
      var rule := CustomerCancellationRule(row.state);
      if rule.None? then (db, Thrown(CancellationNotAllowed))
      else if row.state.Requested? || row.state.Matching? then
        var pending := PendingOffer(db.core, j);
        var db' := if pending.None? then Cancelling(db, j, {})
                   else Cancelling(Drop(db, pending.value, Revoked, Released), j,
                                   {db.core.offers[pending.value].driver});
        (db', Ok(CancelResponse(j, row.version + 1, None, rule.value)))
      else
        var working := WorkingAssignment(db.core, j);
        if working.None? then (db, Thrown(CancellationNotAllowed))
        else (Finish(db, working.value, Dropped, Cancelled, row.ride, None, Cancel, customer, CancelledEvent),
              Ok(CancelResponse(j, row.version + 1, Some(db.core.assignments[working.value].driver), rule.value)))
  }

  ghost function DoCreateDelivery(db: Db, customer: Id): (Db, Outcome) {
    var j := Delivery(db.core.nextId);
    (Enter(db, j, JobRow(customer, Requested, 0, Parcel)), Ok(JobResponse(j, Requested, 0, None, None, None)))
  }

  ghost function DoStartDelivery(db: Db, customer: Id, id: Id, now: Time, found: seq<Candidate>): (Db, Outcome)
    requires Joined(db)
  {
    var j := Delivery(id);
    if j !in db.core.jobs || db.core.jobs[j].customer != customer then (db, Thrown(DeliveryNotFound))
    else if !db.core.jobs[j].state.Requested? then (db, Thrown(DeliveryNotMatchable))
    else
      var db1 := BeginMatching(db, j, Some(customer));
      var first := FirstClaim(Candidates(db1.core, j, None, found));
      if first.Some? && first.value in db1.core.work then
        var db' := OfferNext(db1, j, first.value, now, 1, OfferCreated);
        (db', Ok(Matched(db', j, Some(db1.core.nextId + 1))))
      else
        var db' := Exhaust(db1, j, ExhaustMatching, None);
        (db', Ok(Matched(db', j, None)))
  }

  ghost function DoAcceptDelivery(db: Db, d: Id, o: Id, key: Id, now: Time): (Db, Outcome)
    requires Joined(db)
  {
    if o !in db.core.offers || !db.core.offers[o].job.Delivery? then (db, Thrown(OfferNotFound))
    else if db.core.offers[o].driver != d then (db, Thrown(OfferNotForDriver))
    else if db.core.offers[o].status.Accepted? && db.core.offers[o].acceptedKey == Some(key)
    then (db, Ok(OfferResponse(ViewOf(db.core, o))))
    else if !db.core.offers[o].status.Pending? then (db, Thrown(OfferAlreadyResolved))
    else if db.core.offers[o].expiresAt <= now then (db, Thrown(OfferIsExpired))
    else var db' := Hire(db, o, key, now); (db', Ok(OfferResponse(ViewOf(db'.core, o))))
  }

  /** The step of a Delivery's assignment that is in order. */
  function DriveDeliveryOn(db: Db, a: Id, action: Action, confirmation: string): (Db, Outcome)
    requires AssignmentRows(db.core, a) && Known(db, db.core.assignments[a].job)
  {
    var g, p := db.core.assignments[a], TransitionPolicy(action);
    var db' :=
      if action.CompleteJob?
      then Finish(db, a, Done, Completed, db.core.jobs[g.job].ride, Some(Proof(g.job, a, g.driver, confirmation)),
                  Complete, g.driver, CompletedEvent)
      else Drive(db, a, p.to, p.workTo,
                 if action.StartJob? && g.custody.None? then Some(confirmation) else g.custody, p.act, p.kind);
    (db', Ok(Reply(db'.core, g.job, g.driver)))
  }

  ghost function DoDriveDelivery(db: Db, d: Id, id: Id, action: Action, confirmation: string): (Db, Outcome)
    requires Joined(db)
  {
    var j := Delivery(id);
    var found := AssignmentOf(db.core, j, d);
    if found.None? then (db, Thrown(if j in db.core.jobs then NotAssigned else DeliveryNotFound))
    else if !InOrder(db.core, found.value, action) then (db, Thrown(InvalidState))
    else DriveDeliveryOn(db, found.value, action, confirmation)
  }

  ghost function DoSweepDelivery(db: Db, o: Id, locked: bool, now: Time): (Db, Outcome)
    requires Joined(db)
  {
    if o !in db.core.offers || !db.core.offers[o].job.Delivery? || locked || !db.core.offers[o].status.Pending?
       || now < db.core.offers[o].expiresAt
    then (db, Ok(SweepResponse(false)))
    else (Exhaust(Expire(db, o), db.core.offers[o].job, ExpireNoReassignment, None), Ok(SweepResponse(true)))
  }

  ghost function DoCapture(db: Db, customer: Id, id: Id, status: PaymentStatus): (Db, Outcome)
    requires Joined(db)
  {
    var j := Trip(id);
    if j !in db.core.jobs then (db, Thrown(TripNotFound))
    else if db.core.jobs[j].customer != customer then (db, Thrown(PaymentForbidden))
    else if !db.core.jobs[j].state.Completed? || db.core.jobs[j].ride.finalFare.None? then (db, Thrown(TripNotCompleted))
    else
      var attempts := if id in db.books.payments then db.books.payments[id] else [];
      if attempts != [] && !Last(attempts).status.Failed? then
        (db, Thrown(match Last(attempts).status
                    case PaymentPending => PaymentIsPending
                    case Succeeded => AlreadySucceeded
                    case _ => ReconciliationRequired))
      else
        var attempt := Attempt(if attempts == [] then 1 else Last(attempts).number + 1,
                               db.core.jobs[j].ride.finalFare.value, status);
        (db.(books := db.books.(payments := db.books.payments[id := attempts + [attempt]])),
         Ok(PaymentResponse(id, attempt)))
  }

  /** The transaction after its receipt lookup. */
  ghost function Execute(db: Db, cmd: Command): (Db, Outcome)
    requires Joined(db)
  {
    match cmd
    case SetWork(d, available, eligible) => DoSetWork(db, d, available, eligible)
    case IssueQuote(customer, estimate, rules, expiresAt) => DoIssueQuote(db, customer, estimate, rules, expiresAt)
    case CreateTrip(customer, quote, _, _, now) => DoCreateTrip(db, customer, quote, now)
    case StartTrip(customer, id, _, _, now, found) => DoStartTrip(db, customer, id, now, found)
    case AcceptTrip(d, o, key, _, now) => DoAcceptTrip(db, d, o, key, now)
    case RejectTrip(d, o, _, _, now, found) => DoRejectTrip(db, d, o, now, found)
    case SweepTrip(o, locked, now, found) => DoSweepTrip(db, o, locked, now, found)
    case DriveTrip(d, id, action, _, _, distance, duration) => DoDriveTrip(db, d, id, action, distance, duration)
    case CancelTrip(customer, id, _, _) => DoCancelTrip(db, customer, id)
    case CreateDelivery(customer, _, _) => DoCreateDelivery(db, customer)
    case StartDelivery(customer, id, _, _, now, found) => DoStartDelivery(db, customer, id, now, found)
    case AcceptDelivery(d, o, key, now) => DoAcceptDelivery(db, d, o, key, now)
    case DriveDelivery(d, id, action, _, _, confirmation) => DoDriveDelivery(db, d, id, action, confirmation)
    case SweepDelivery(o, locked, now) => DoSweepDelivery(db, o, locked, now)
    case Capture(customer, id, _, _, status) => DoCapture(db, customer, id, status)
  }

  /** The receipt a command is looked up and recorded under, if it has one. */
  function KeyOf(cmd: Command): Option<ReceiptKey> {
    match cmd
    case CreateTrip(customer, _, key, _, _) => Some(ReceiptKey(customer, CreateTripOp, key))
    case StartTrip(customer, _, key, _, _, _) => Some(ReceiptKey(customer, StartTripOp, key))
    case AcceptTrip(d, _, key, _, _) => Some(ReceiptKey(d, AcceptTripOp, key))
    case RejectTrip(d, _, key, _, _, _) => Some(ReceiptKey(d, RejectTripOp, key))
    case DriveTrip(d, _, action, key, _, _, _) => Some(ReceiptKey(d, DriveTripOp(action), key))
    case CancelTrip(customer, _, key, _) => Some(ReceiptKey(customer, CancelTripOp, key))
    case CreateDelivery(customer, key, _) => Some(ReceiptKey(customer, CreateDeliveryOp, key))
    case StartDelivery(customer, _, key, _, _, _) => Some(ReceiptKey(customer, StartDeliveryOp, key))
    case DriveDelivery(d, _, action, key, _, _) => Some(ReceiptKey(d, DriveDeliveryOp(action), key))
    case Capture(customer, _, key, _, _) => Some(ReceiptKey(customer, CaptureOp, key))
    case _ => None
  }

  function FingerprintOf(cmd: Command): Id {
    if KeyOf(cmd).Some? then cmd.fingerprint else 0
  }

  /** What a stored receipt answers to a request with the given fingerprint. */
  function Replayed(receipt: Receipt, fingerprint: Id): Outcome {
    if receipt.fingerprint == fingerprint then Ok(receipt.response) else Thrown(KeyReused)
  }

  /** A successful command records its receipt in the same transaction. */
  ghost function Recorded(result: (Db, Outcome), k: Option<ReceiptKey>, fingerprint: Id): (Db, Outcome) {
    if k.Some? && result.1.Ok?
    then (result.0.(receipts := result.0.receipts[k.value := Receipt(fingerprint, result.1.response)]), result.1)
    else result
  }

  /** A whole transaction. */
  ghost function Apply(db: Db, cmd: Command): (Db, Outcome)
    requires Joined(db)
  {
    var k := KeyOf(cmd);
    if k.Some? && k.value in db.receipts then (db, Replayed(db.receipts[k.value], FingerprintOf(cmd)))
    else Recorded(Execute(db, cmd), k, FingerprintOf(cmd))
  }
}
