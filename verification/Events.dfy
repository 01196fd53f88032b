/**
 * The changes that the transactions make to the matching tables, each as one step from a
 * table value to the next. A transaction is one of these or a few in a row.
 */
module Events {
  import opened Basics
  import opened Fare
  import opened Tables

  /** A Driver goes on or off duty; the row is created on first use. */
  function Duty(c: Core, driver: Id, state: WorkState): Core {
    if driver in c.work
    then c.(work := c.work[driver := Work(state, None, c.work[driver].delivery, c.work[driver].version + 1)])
    else c.(work := c.work[driver := Work(state, None, None, 0)])
  }

  /** A Trip or Delivery row is created under the next id. */
  function AddJob(c: Core, j: Job, row: JobRow): Core {
    c.(jobs := c.jobs[j := row], nextId := c.nextId + 1)
  }

  /** The aggregate moves to a state and its version grows by one. */
  function Move(c: Core, j: Job, to: State): Core
    requires j in c.jobs
  {
    c.(jobs := c.jobs[j := Moved(c.jobs[j], to)])
  }

  /** A Driver is reserved and offered the job. */
  function OpenOffer(c: Core, j: Job, driver: Id, expiresAt: Time, attempt: nat): Core
    requires driver in c.work
  {
    var r := c.nextId;
    var o := r + 1;
    c.(nextId := o + 1,
       reservations := c.reservations[r := Reservation(j, driver, Active, expiresAt)],
       work := c.work[driver := Occupied(c.work[driver], j, Reserved)],
       offers := c.offers[o := Offer(j, r, driver, attempt, Pending, expiresAt, None, None)])
  }

  /** The rows that one offer names are present. */
  predicate OfferRows(c: Core, o: Id) {
    && o in c.offers
    && c.offers[o].reservation in c.reservations
    && c.offers[o].driver in c.work
  }

  /** A pending offer ends without acceptance, and its Driver is available again. */
  function ShutOffer(c: Core, o: Id, status: OfferStatus, released: ReservationStatus): Core
    requires OfferRows(c, o)
  {
    var f := c.offers[o];
    c.(offers := c.offers[o := f.(status := status)],
       reservations := c.reservations[f.reservation := c.reservations[f.reservation].(status := released)],
       work := c.work[f.driver := Vacated(c.work[f.driver], f.job)])
  }

  /** A pending offer is accepted: its Driver is assigned to the job. */
  function Engage(c: Core, o: Id, key: Id, now: Time): Core
    requires OfferRows(c, o) && c.offers[o].job in c.jobs
  {
    var f := c.offers[o];
    c.(nextId := c.nextId + 1,
       offers := c.offers[o := f.(status := Accepted, acceptedKey := Some(key), acceptedAt := Some(now))],
       reservations := c.reservations[f.reservation := c.reservations[f.reservation].(status := Committed)],
       work := c.work[f.driver := Occupied(c.work[f.driver], f.job, ToPickup)],
       assignments := c.assignments[c.nextId := Assignment(f.job, o, f.driver, Working, None)],
       jobs := c.jobs[f.job := Moved(c.jobs[f.job], DriverToPickup)])
  }

  /** The rows that one assignment names are present. */
  predicate AssignmentRows(c: Core, a: Id) {
    && a in c.assignments
    && c.assignments[a].job in c.jobs
    && c.assignments[a].driver in c.work
  }

  /** The assigned Driver arrives or starts. */
  function Progress(c: Core, a: Id, to: State, work: WorkState, custody: Option<string>): Core
    requires AssignmentRows(c, a)
  {
    var g := c.assignments[a];
    c.(assignments := c.assignments[a := g.(custody := custody)],
       work := c.work[g.driver := Occupied(c.work[g.driver], g.job, work)],
       jobs := c.jobs[g.job := Moved(c.jobs[g.job], to)])
  }

  /**
   * The assignment ends, the Driver is available, and the aggregate is terminal with the given
   * price columns; for a Delivery the handoff is recorded under the next id.
   */
  function Release(
      c: Core, a: Id, status: AssignmentStatus, to: State, ride: Ride, handoff: Option<Proof>): Core
    requires AssignmentRows(c, a)
  {
    var g := c.assignments[a];
    c.(nextId := if handoff.Some? then c.nextId + 1 else c.nextId,
       proofs := if handoff.Some? then c.proofs[c.nextId := handoff.value] else c.proofs,
       assignments := c.assignments[a := g.(status := status)],
       work := c.work[g.driver := Vacated(c.work[g.driver], g.job)],
       jobs := c.jobs[g.job := Moved(c.jobs[g.job], to).(ride := ride)])
  }

  /** One transition row and one event at the aggregate's new version. */
  function Note(
      n: Journal, j: Job, act: Act, actor: Option<Id>, from: State, to: State, version: nat,
      kind: EventKind, carried: Option<State>, drivers: set<Id>): Journal
    requires j in n.log && j in n.outbox
  {
    n.(log := n.log[j := n.log[j] + [Transition(act, actor, Some(from), to, Some(version), version + 1)]],
       outbox := n.outbox[j := n.outbox[j] + [Event(kind, version + 1, carried, drivers)]])
  }

  /** The first transition row and event of a new aggregate. */
  function Begin(n: Journal, j: Job, actor: Id): Journal {
    n.(log := n.log[j := [Transition(Create, Some(actor), None, Requested, None, 0)]],
       outbox := n.outbox[j := [Event(CreatedEvent, 0, Some(Requested), {})]])
  }

  /** One event at the aggregate's present version. */
  function Tell(n: Journal, j: Job, e: Event): Journal
    requires j in n.outbox
  {
    n.(outbox := n.outbox[j := n.outbox[j] + [e]])
  }
}
