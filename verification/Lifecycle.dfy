/**
 * The Trip transition table (apps/api/src/trip/domain/trip-lifecycle.ts) and the expiry policy
 * (apps/api/src/dispatch/dispatch-expiry-policy.ts).
 */
module Lifecycle {
  import opened Basics
  import opened Tables

  datatype TripCommand =
    | StartMatchingCommand | AssignDriverCommand | ExhaustMatchingCommand | MarkAtPickupCommand
    | RetryMatchingCommand | StartTripCommand | CompleteTripCommand | CancelCommand

  datatype TripSnapshot = TripSnapshot(state: State, version: nat)

  /** The table's entry, None where there is none. */
  function NextState(s: State, command: TripCommand): Option<State> {
    match (s, command)
    case (Requested, StartMatchingCommand) => Some(Matching)
    case (Requested, CancelCommand) => Some(Cancelled)
    case (Matching, AssignDriverCommand) => Some(DriverToPickup)
    case (Matching, ExhaustMatchingCommand) => Some(NoDriverAvailable)
    case (Matching, CancelCommand) => Some(Cancelled)
    case (DriverToPickup, MarkAtPickupCommand) => Some(AtPickup)
    case (DriverToPickup, RetryMatchingCommand) => Some(Matching)
    case (DriverToPickup, CancelCommand) => Some(Cancelled)
    case (AtPickup, StartTripCommand) => Some(InProgress)
    case (AtPickup, CancelCommand) => Some(Cancelled)
    case (InProgress, CompleteTripCommand) => Some(Completed)
    case (InProgress, CancelCommand) => Some(Cancelled)
    case _ => None
  }

  /** Every command leads to one state only, from one state only, except that all open ones can be cancelled. */
  lemma TableByCommand(s: State, command: TripCommand)
    ensures NextState(s, command) ==
            match command
            case StartMatchingCommand => if s.Requested? then Some(Matching) else None
            case AssignDriverCommand => if s.Matching? then Some(DriverToPickup) else None
            case ExhaustMatchingCommand => if s.Matching? then Some(NoDriverAvailable) else None
            case MarkAtPickupCommand => if s.DriverToPickup? then Some(AtPickup) else None
            case RetryMatchingCommand => if s.DriverToPickup? then Some(Matching) else None
            case StartTripCommand => if s.AtPickup? then Some(InProgress) else None
            case CompleteTripCommand => if s.InProgress? then Some(Completed) else None
            case CancelCommand => if s in {Completed, Cancelled, NoDriverAvailable} then None else Some(Cancelled)
  {
  }

  /** TripLifecycle.apply; None is a thrown TripTransitionError. */
  function Apply(current: TripSnapshot, command: TripCommand): Option<TripSnapshot> {
    var next := NextState(current.state, command);
    if next.None? then None else Some(TripSnapshot(next.value, current.version + 1))
  }

  datatype ExpiryOutcome = NotDue | ExpiredAndReleased | AlreadyTerminal

  datatype Change<+T> = Change(before: T, after: T)

  datatype ExpiryDecision = ExpiryDecision(
    outcome: ExpiryOutcome, offer: Change<OfferStatus>, reservation: Change<ReservationStatus>,
    work: Change<WorkState>, mayRetryMatching: bool)

  predicate CanRetryMatching(
      offer: OfferStatus, reservation: ReservationStatus, work: WorkState, trip: State) {
    && trip.Matching?
    && !(offer.Pending? || offer.Accepted? || reservation.Active? || reservation.Committed?
         || work.Reserved? || work.ToPickup? || work.OnTrip?)
  }

  function EvaluateExpiry(
      now: Time, expiresAt: Time, offer: OfferStatus, reservation: ReservationStatus, work: WorkState,
      trip: State): ExpiryDecision {
    if !offer.Pending? then
      ExpiryDecision(AlreadyTerminal, Change(offer, offer), Change(reservation, reservation), Change(work, work),
                     CanRetryMatching(offer, reservation, work, trip))
    else if now < expiresAt then
      ExpiryDecision(NotDue, Change(offer, offer), Change(reservation, reservation), Change(work, work), false)
    else
      var reservation' := if reservation.Active? then Lapsed else reservation;
      var work' := if work.Reserved? then Available else work;
      ExpiryDecision(ExpiredAndReleased, Change(Pending, Expired), Change(reservation, reservation'),
                     Change(work, work'), CanRetryMatching(Expired, reservation', work', trip))
  }

  /**
   * An offer expires exactly when it is pending and due, and with it goes an active reservation and a
   * reserved Driver is available; otherwise nothing changes. A match may be retried exactly when it is
   * not merely too early and afterwards neither offer, reservation nor Driver is committed or could become so.
   */
  lemma ExpiryDecides(
      now: Time, expiresAt: Time, offer: OfferStatus, reservation: ReservationStatus, work: WorkState, trip: State)
    ensures var d, due := EvaluateExpiry(now, expiresAt, offer, reservation, work, trip), offer.Pending? && expiresAt <= now;
            && (d.outcome == ExpiredAndReleased <==> due) && (d.outcome == AlreadyTerminal <==> !offer.Pending?)
            && d.offer == Change(offer, if due then Expired else offer)
            && d.reservation == Change(reservation, if due && reservation.Active? then Lapsed else reservation)
            && d.work == Change(work, if due && work.Reserved? then Available else work)
            && (d.mayRetryMatching <==>
                  && trip.Matching? && d.offer.after in {Rejected, Expired, Revoked}
                  && d.reservation.after in {Released, Lapsed} && d.work.after in {Offline, Available})
  {
  }

  /** Deciding again on what a decision left, at any later time, changes nothing and allows the same. */
  lemma ExpiryDecidesOnce(
      now: Time, later: Time, expiresAt: Time, offer: OfferStatus, reservation: ReservationStatus, work: WorkState, trip: State)
    ensures var d := EvaluateExpiry(now, expiresAt, offer, reservation, work, trip);
            var again := EvaluateExpiry(later, expiresAt, d.offer.after, d.reservation.after, d.work.after, trip);
            !d.outcome.NotDue? ==>
              && again.offer.after == d.offer.after && again.reservation.after == d.reservation.after
              && again.work.after == d.work.after && again.mayRetryMatching == d.mayRetryMatching
  {
  }
}
