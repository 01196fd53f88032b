/** What the transactions' SELECT statements return. */
module Queries {
  import opened Basics
  import opened Tables
  import opened Ranking

  const OFFER_TTL_MS := 20_000
  const MAX_OFFER_ATTEMPTS := 3

  /** MAX(attempt_number) over the given offers, 0 when there are none. */
  ghost function MaxOver(offers: map<Id, Offer>, keys: set<Id>): (m: nat)
    requires keys <= offers.Keys
    ensures forall o | o in keys :: offers[o].attempt <= m
    ensures m == 0 || exists o :: o in keys && offers[o].attempt == m
  {
    if keys == {} then 0 else
    var o :| o in keys;
    var m := MaxOver(offers, keys - {o});
    Max(offers[o].attempt, m)
  }

  function OffersOf(c: Core, j: Job): set<Id> {
    set o | o in c.offers && c.offers[o].job == j
  }

  ghost function MaxAttempt(c: Core, j: Job): nat {
    MaxOver(c.offers, OffersOf(c, j))
  }

  /** The WHERE clauses of the Trip candidate query that concern these tables. */
  predicate ClaimableForTrip(c: Core, j: Job, excluded: Option<Id>, d: Id) {
    && excluded != Some(d)
    && d in c.work && c.work[d].state.Available?
    && (forall r | r in c.reservations ::
          !(c.reservations[r].job.Trip? && c.reservations[r].driver == d && c.reservations[r].status.Active?))
    && (forall o | o in c.offers :: !(c.offers[o].job == j && c.offers[o].driver == d))
  }

  predicate ClaimableForDelivery(c: Core, d: Id) {
    d in c.work && c.work[d].state.Available?
  }

  predicate Claimable(c: Core, j: Job, excluded: Option<Id>, d: Id) {
    if j.Trip? then ClaimableForTrip(c, j, excluded, d) else ClaimableForDelivery(c, d)
  }

  /**
   * The candidate rows: any rows the geospatial part of the query may produce, filtered by the
   * clauses on these tables. A row skipped because it is locked is simply not among them.
   */
  function Candidates(c: Core, j: Job, excluded: Option<Id>, found: seq<Candidate>): seq<Candidate> {
    if found == [] then []
    else if Claimable(c, j, excluded, found[0].driver)
    then [found[0].(eligible := true)] + Candidates(c, j, excluded, found[1..])
    else Candidates(c, j, excluded, found[1..])
  }

  /** The Driver of the first row whose reservation is inserted. */
  function FirstClaim(rows: seq<Candidate>): Option<Id> {
    if rows == [] then None
    else if !rows[0].conflict then Some(rows[0].driver)
    else FirstClaim(rows[1..])
  }

  function PendingOffers(c: Core, j: Job): set<Id> {
    set o | o in c.offers && c.offers[o].job == j && c.offers[o].status.Pending?
  }

  /** The aggregate's pending offer, if it has one. */
  ghost function PendingOffer(c: Core, j: Job): Option<Id> {
    if PendingOffers(c, j) == {} then None
    else var o :| o in PendingOffers(c, j); Some(o)
  }

  function AssignmentsOf(c: Core, j: Job, d: Id): set<Id> {
    set a | a in c.assignments && c.assignments[a].job == j && c.assignments[a].driver == d
  }

  /** The assignment of this Driver to this aggregate, if there is one. */
  ghost function AssignmentOf(c: Core, j: Job, d: Id): Option<Id> {
    if AssignmentsOf(c, j, d) == {} then None
    else var a :| a in AssignmentsOf(c, j, d); Some(a)
  }

  function WorkingAssignments(c: Core, j: Job): set<Id> {
    set a | a in c.assignments && c.assignments[a].job == j && c.assignments[a].status.Working?
  }

  ghost function WorkingAssignment(c: Core, j: Job): Option<Id> {
    if WorkingAssignments(c, j) == {} then None
    else var a :| a in WorkingAssignments(c, j); Some(a)
  }

  /** The Customer has a Trip that is not terminal. */
  predicate HasActiveTrip(c: Core, customer: Id) {
    exists j | j in c.jobs :: j.Trip? && c.jobs[j].customer == customer && !Terminal(c.jobs[j].state)
  }

  /** A row's view in a response, with the aggregate's present state and version. */
  function ViewOf(c: Core, o: Id): OfferView
    requires o in c.offers && c.offers[o].job in c.jobs
  {
    var f := c.offers[o];
    OfferView(o, f.job, f.driver, f.attempt, f.status, f.expiresAt, c.jobs[f.job].state, c.jobs[f.job].version)
  }

  /** customerCancellationRule */
  function CustomerCancellationRule(s: State): Option<CancellationRule> {
    match s
    case Requested => Some(CustomerPreTrip)
    case Matching => Some(CustomerPreTrip)
    case DriverToPickup => Some(CustomerPreTrip)
    case AtPickup => Some(CustomerAtPickup)
    case _ => None
  }

  datatype Policy = Policy(from: State, to: State, workFrom: WorkState, workTo: WorkState, act: Act, kind: EventKind)

  /** assignedTripTransitionPolicy, and deliveryTransitionPolicy in the same terms. */
  function TransitionPolicy(action: Action): Policy {
    match action
    case ArriveAtPickup => Policy(DriverToPickup, AtPickup, ToPickup, ToPickup, Arrive, DriverArrived)
    case StartJob => Policy(AtPickup, InProgress, ToPickup, OnTrip, Start, Started)
    case CompleteJob => Policy(InProgress, Completed, OnTrip, Available, Complete, CompletedEvent)
  }
}
