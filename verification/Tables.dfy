/**
 * The rows that the repositories read and write, and the database as one value.
 *
 * The trip and delivery schemas each have offers, reservations, assignments, transitions,
 * outbox events and receipts of the same shape. A table of that kind is kept here once, and a
 * row says by its Job which schema it belongs to; a statement on one schema looks only at rows
 * of that schema. A Delivery's IN_TRANSIT and DELIVERED are written InProgress and Completed.
 */
module Tables {
  import opened Basics
  import opened Fare

  /** A primary key; a fresh one is taken from `nextId`. */
  type Id = nat
  /** Milliseconds. */
  type Time = int

  datatype Job = Trip(id: Id) | Delivery(id: Id)

  datatype State =
    | Requested | Matching | DriverToPickup | AtPickup | InProgress
    | Completed | Cancelled | NoDriverAvailable

  predicate Terminal(s: State) {
    s.Completed? || s.Cancelled? || s.NoDriverAvailable?
  }

  /** An accepting Driver is at work on the aggregate. */
  predicate Staffed(s: State) {
    s.DriverToPickup? || s.AtPickup? || s.InProgress?
  }

  datatype WorkState = Offline | Available | Reserved | ToPickup | OnTrip
  datatype OfferStatus = Pending | Accepted | Rejected | Expired | Revoked
  datatype ReservationStatus = Active | Committed | Released | Lapsed
  datatype AssignmentStatus = Working | Done | Dropped

  /** A row of dispatch.driver_work_states. */
  datatype Work = Work(state: WorkState, trip: Option<Id>, delivery: Option<Id>, version: nat)

  /** What only a Trip has: the consumed quote's terms, and the bill once completed. */
  datatype Ride =
    | Parcel
    | Ride(quote: Id, rules: Rules<int>, surge: int, quotedTotal: int,
           metering: Option<Metering<int>>, finalFare: Option<int>)

  /** A row of trip.trips or delivery.deliveries. */
  datatype JobRow = JobRow(customer: Id, state: State, version: nat, ride: Ride)

  datatype Offer = Offer(
    job: Job, reservation: Id, driver: Id, attempt: nat, status: OfferStatus, expiresAt: Time,
    acceptedKey: Option<Id>, acceptedAt: Option<Time>)

  datatype Reservation = Reservation(job: Job, driver: Id, status: ReservationStatus, expiresAt: Time)

  datatype Assignment = Assignment(
    job: Job, offer: Id, driver: Id, status: AssignmentStatus, custody: Option<string>)

  /** A row of delivery.delivery_proofs. */
  datatype Proof = Proof(job: Job, assignment: Id, recordedBy: Id, text: string)

  /** The tables that matching and driving change together. */
  datatype Core = Core(
    nextId: Id,
    jobs: map<Job, JobRow>,
    work: map<Id, Work>,
    offers: map<Id, Offer>,
    reservations: map<Id, Reservation>,
    assignments: map<Id, Assignment>,
    proofs: map<Id, Proof>)

  /** The `command` column of a state transition. */
  datatype Act =
    | Create | StartMatching | ExhaustMatching | ExhaustAfterReject | ExpireNoReassignment
    | RejectOffer | ExpireOffer | AssignDriver | Arrive | Start | Complete | Cancel

  datatype Transition = Transition(
    act: Act, actor: Option<Id>, from: Option<State>, to: State,
    fromVersion: Option<nat>, toVersion: nat)

  datatype EventKind =
    | CreatedEvent | MatchingStarted | NoDriverEvent | DriverAssigned | DriverArrived | Started
    | CompletedEvent | CancelledEvent
    | OfferCreated | OfferReassigned | OfferRejected | OfferExpired

  /** The event types on which the gateway revokes every subscription. */
  predicate TerminalKind(k: EventKind) {
    k.CompletedEvent? || k.CancelledEvent? || k.NoDriverEvent?
  }

  /** An outbox row; `carried` is the payload's `state`, `drivers` its driver ids. */
  datatype Event = Event(kind: EventKind, version: nat, carried: Option<State>, drivers: set<Id>)

  /** The append-only tables, by aggregate and in insertion order. */
  datatype Journal = Journal(log: map<Job, seq<Transition>>, outbox: map<Job, seq<Event>>)

  datatype QuoteStatus = QuoteActive | Consumed | QuoteExpired | Invalidated

  /** A row of pricing.fare_quotes. */
  datatype Quote = Quote(
    customer: Id, estimate: Metering<int>, rules: Rules<int>, surge: int, total: int,
    status: QuoteStatus, expiresAt: Time)

  datatype PaymentStatus = PaymentPending | Succeeded | Failed | Unknown

  datatype Attempt = Attempt(number: nat, amount: int, status: PaymentStatus)

  /** Quotes, and each Trip's payment attempts in insertion order. */
  datatype Books = Books(quotes: map<Id, Quote>, payments: map<Id, seq<Attempt>>)

  datatype Operation =
    | CreateTripOp | StartTripOp | AcceptTripOp | RejectTripOp | DriveTripOp(action: Action) | CancelTripOp
    | CreateDeliveryOp | StartDeliveryOp | DriveDeliveryOp(action: Action)
    | CaptureOp

  /** The steps of an assigned Driver; a Delivery's Start confirms custody of the parcel. */
  datatype Action = ArriveAtPickup | StartJob | CompleteJob

  datatype ReceiptKey = ReceiptKey(actor: Id, operation: Operation, key: Id)
  datatype Receipt = Receipt(fingerprint: Id, response: Response)

  datatype OfferView = OfferView(
    id: Id, job: Job, driver: Id, attempt: nat, status: OfferStatus, expiresAt: Time,
    state: State, version: nat)

  datatype CancellationRule = CustomerPreTrip | CustomerAtPickup

  datatype Response =
    | WorkResponse(worker: Id, work: WorkState, workVersion: nat)
    | QuoteResponse(quote: Id, quotedTotal: int)
    | JobResponse(job: Job, state: State, version: nat, driver: Option<Id>,
                  metering: Option<Metering<int>>, finalFare: Option<int>)
    | CancelResponse(job: Job, version: nat, driver: Option<Id>, rule: CancellationRule)
    | MatchResponse(job: Job, state: State, version: nat, offer: Option<OfferView>)
    | OfferResponse(view: OfferView)
    | RejectionResponse(rejected: OfferView, reassigned: Option<OfferView>)
    | SweepResponse(processed: bool)
    | PaymentResponse(trip: Id, attempt: Attempt)

  datatype Code =
    | KeyReused | QuoteNotFound | QuoteIsExpired | QuoteAlreadyConsumed | ActiveTripExists
    | TripNotFound | TripNotMatchable | DriverNotEligible | WorkStateConflict
    | OfferNotFound | OfferNotForDriver | OfferIsExpired | OfferAlreadyResolved
    | NotAssigned | InvalidState | MeteringInvalid | SnapshotInvalid | CancellationNotAllowed
    | DeliveryNotFound | DeliveryNotMatchable
    | PaymentForbidden | TripNotCompleted | PaymentIsPending | AlreadySucceeded | ReconciliationRequired
    | PricingInvalid | RankingInvalid | UniqueViolation

  /**
   * How a transaction ends: `Ok` and `Declined` are returned, so the transaction commits;
   * `Thrown` is an exception, so it is rolled back.
   */
  datatype Outcome = Ok(response: Response) | Declined(code: Code) | Thrown(code: Code)

  datatype Db = Db(core: Core, journal: Journal, books: Books, receipts: map<ReceiptKey, Receipt>)

  function EmptyDb(): Db {
    Db(Core(0, map[], map[], map[], map[], map[], map[]), Journal(map[], map[]), Books(map[], map[]), map[])
  }

  /** The aggregate a work-state row is bound to, when exactly one of its two columns is set. */
  function Current(w: Work): Option<Job> {
    if w.trip.Some? && w.delivery.None? then Some(Trip(w.trip.value))
    else if w.trip.None? && w.delivery.Some? then Some(Delivery(w.delivery.value))
    else None
  }

  /** The row after it is bound to a job: only the column of the job's own schema is written. */
  function Occupied(w: Work, j: Job, state: WorkState): Work {
    match j
    case Trip(id) => Work(state, Some(id), w.delivery, w.version + 1)
    case Delivery(id) => Work(state, w.trip, Some(id), w.version + 1)
  }

  /** The row after the job's column is cleared and the Driver made available. */
  function Vacated(w: Work, j: Job): Work {
    match j
    case Trip(_) => Work(Available, None, w.delivery, w.version + 1)
    case Delivery(_) => Work(Available, w.trip, None, w.version + 1)
  }

  function Moved(row: JobRow, to: State): JobRow {
    row.(state := to, version := row.version + 1)
  }
}
