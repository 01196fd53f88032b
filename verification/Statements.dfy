/**
 * The guarded UPDATE and INSERT statements of the repositories, each as a function from the tables
 * before to the tables after and, where the program looks at it, the number of rows changed; and
 * what a transaction's statements amount to in a sound database.
 */
module Statements {
  import opened Basics
  import opened Fare
  import opened Tables
  import opened Events
  import opened Commitments
  import opened CommitmentSteps

  /** UPDATE offers SET status WHERE id AND status = 'PENDING' */
  function ResolveOffer(c: Core, o: Id, status: OfferStatus): Core {
    if o in c.offers && c.offers[o].status.Pending?
    then c.(offers := c.offers[o := c.offers[o].(status := status)]) else c
  }

  function AcceptOffer(c: Core, o: Id, key: Id, now: Time): Core {
    if o in c.offers && c.offers[o].status.Pending?
    then c.(offers := c.offers[o := c.offers[o].(status := Accepted, acceptedKey := Some(key), acceptedAt := Some(now))])
    else c
  }

  /** UPDATE driver_reservations SET status WHERE id AND status = 'ACTIVE' */
  function ResolveReservation(c: Core, r: Id, status: ReservationStatus): Core {
    if r in c.reservations && c.reservations[r].status.Active?
    then c.(reservations := c.reservations[r := c.reservations[r].(status := status)]) else c
  }

  /** UPDATE driver_reservations SET status = 'EXPIRED' WHERE aggregate AND driver AND status = 'ACTIVE' */
  function ExpireReservations(c: Core, j: Job, d: Id): Core {
    c.(reservations := map r | r in c.reservations ::
      var s := c.reservations[r]; if s.job == j && s.driver == d && s.status.Active? then s.(status := Lapsed) else s)
  }

  /** The column of the aggregate's schema. */
  function BoundTo(w: Work, j: Job): bool {
    match j
    case Trip(id) => w.trip == Some(id)
    case Delivery(id) => w.delivery == Some(id)
  }

  /** UPDATE driver_work_states SET work_state, current WHERE driver AND work_state AND current */
  function BindWork(c: Core, d: Id, j: Job, from: WorkState, to: WorkState): (Core, nat) {
    if d in c.work && c.work[d].state == from && BoundTo(c.work[d], j) && (j.Delivery? ==> c.work[d].trip.None?)
    then (c.(work := c.work[d := Occupied(c.work[d], j, to)]), 1) else (c, 0)
  }

  /** UPDATE driver_work_states SET work_state = 'AVAILABLE', current = NULL WHERE driver AND work_state AND current */
  function FreeWork(c: Core, d: Id, j: Job, from: WorkState): (Core, nat) {
    if d in c.work && c.work[d].state == from && BoundTo(c.work[d], j)
    then (c.(work := c.work[d := Vacated(c.work[d], j)]), 1) else (c, 0)
  }

  /** UPDATE driver_work_states SET work_state = 'RESERVED', current WHERE driver AND 'AVAILABLE' AND current IS NULL */
  function ClaimWork(c: Core, d: Id, j: Job): (Core, nat) {
    if d in c.work && c.work[d].state.Available? && c.work[d].trip.None? && (j.Delivery? ==> c.work[d].delivery.None?)
    then (c.(work := c.work[d := Occupied(c.work[d], j, Reserved)]), 1) else (c, 0)
  }

  /** UPDATE the aggregate SET state, version WHERE id AND state AND version */
  function MoveJob(c: Core, j: Job, from: State, version: nat, to: State): (Core, nat) {
    if j in c.jobs && c.jobs[j].state == from && c.jobs[j].version == version
    then (c.(jobs := c.jobs[j := c.jobs[j].(state := to, version := version + 1)]), 1) else (c, 0)
  }

  function InsertReservation(c: Core, j: Job, d: Id, expiresAt: Time): Core {
    c.(nextId := c.nextId + 1, reservations := c.reservations[c.nextId := Reservation(j, d, Active, expiresAt)])
  }

  function InsertOffer(c: Core, j: Job, r: Id, d: Id, attempt: nat, expiresAt: Time): Core {
    c.(nextId := c.nextId + 1,
       offers := c.offers[c.nextId := Offer(j, r, d, attempt, Pending, expiresAt, None, None)])
  }

  function InsertAssignment(c: Core, j: Job, o: Id, d: Id): Core {
    c.(nextId := c.nextId + 1, assignments := c.assignments[c.nextId := Assignment(j, o, d, Working, None)])
  }

  function InsertProof(c: Core, p: Proof): Core {
    c.(nextId := c.nextId + 1, proofs := c.proofs[c.nextId := p])
  }

  /** UPDATE assignments SET status WHERE id AND status = 'ACTIVE' */
  function EndAssignment(c: Core, a: Id, status: AssignmentStatus): (Core, nat) {
    if a in c.assignments && c.assignments[a].status.Working?
    then (c.(assignments := c.assignments[a := c.assignments[a].(status := status)]), 1) else (c, 0)
  }

  /** UPDATE assignments SET pickup_custody_confirmation WHERE id AND 'ACTIVE' AND it IS NULL */
  function ConfirmCustody(c: Core, a: Id, text: string): Core {
    if a in c.assignments && c.assignments[a].status.Working? && c.assignments[a].custody.None?
    then c.(assignments := c.assignments[a := c.assignments[a].(custody := Some(text))]) else c
  }

  function AppendTransition(n: Journal, j: Job, t: Transition): Journal {
    n.(log := n.log[j := (if j in n.log then n.log[j] else []) + [t]])
  }

  function AppendOutbox(n: Journal, j: Job, e: Event): Journal {
    n.(outbox := n.outbox[j := (if j in n.outbox then n.outbox[j] else []) + [e]])
  }

  // ---- What they amount to

  /** A pending offer is resolved, its reservation released and its Driver freed: no guard fails. */
  lemma ShutIs(c: Core, ix: Index, o: Id, status: OfferStatus, released: ReservationStatus)
    requires Linked(c, ix) && o in c.offers && c.offers[o].status.Pending?
    ensures OfferRows(c, o)
    ensures var f := c.offers[o];
            var c2 := ResolveReservation(ResolveOffer(c, o, status), f.reservation, released);
            FreeWork(c2, f.driver, f.job, Reserved) == (ShutOffer(c, o, status, released), 1)
  {
    PendingFacts(c, ix, o);
  }

  /** Expiry names the reservation by aggregate and Driver: it is the offer's own and no other. */
  lemma ExpireIs(c: Core, ix: Index, o: Id)
    requires Linked(c, ix) && o in c.offers && c.offers[o].status.Pending?
    ensures OfferRows(c, o)
    ensures var f := c.offers[o];
            FreeWork(ExpireReservations(ResolveOffer(c, o, Expired), f.job, f.driver), f.driver, f.job, Reserved)
              == (ShutOffer(c, o, Expired, Lapsed), 1)
  {
    PendingFacts(c, ix, o);
    OnlyPending(c, ix, o);
    var f := c.offers[o];
    var c1 := ResolveOffer(c, o, Expired);
    assert ExpireReservations(c1, f.job, f.driver).reservations ==
           c.reservations[f.reservation := c.reservations[f.reservation].(status := Lapsed)];
  }

  /** The statements of an acceptance, in either order of the repositories. */
  lemma EngageIs(c: Core, ix: Index, o: Id, key: Id, now: Time)
    requires Linked(c, ix) && o in c.offers && c.offers[o].status.Pending?
    ensures OfferRows(c, o) && c.offers[o].job in c.jobs
    ensures var f := c.offers[o];
            var row := c.jobs[f.job];
            var c2 := ResolveReservation(AcceptOffer(c, o, key, now), f.reservation, Committed);
            var c3 := BindWork(c2, f.driver, f.job, Reserved, ToPickup);
            var c4 := InsertAssignment(c3.0, f.job, o, f.driver);
            && c3.1 == 1
            && MoveJob(c4, f.job, Matching, row.version, DriverToPickup) == (Engage(c, o, key, now), 1)
            && BindWork(c, f.driver, f.job, Reserved, ToPickup).1 == 1
            && AcceptOffer(ResolveReservation(BindWork(c, f.driver, f.job, Reserved, ToPickup).0, f.reservation, Committed), o, key, now)
                 == c3.0
  {
    PendingFacts(c, ix, o);
  }

  /** A Driver who is available can be claimed. */
  lemma OpenIs(c: Core, ix: Index, j: Job, d: Id, expiresAt: Time, attempt: nat)
    requires Linked(c, ix) && d in c.work && c.work[d].state.Available?
    ensures var c1 := InsertReservation(c, j, d, expiresAt);
            var c2 := ClaimWork(c1, d, j);
            c2.1 == 1 && InsertOffer(c2.0, j, c.nextId, d, attempt, expiresAt) == OpenOffer(c, j, d, expiresAt, attempt)
  {
    assert WorkOk(c, ix, d);
  }

  lemma ProgressIs(c: Core, ix: Index, a: Id, to: State, work: WorkState)
    requires Linked(c, ix) && a in c.assignments && c.assignments[a].status.Working?
    ensures AssignmentRows(c, a)
    ensures var g := c.assignments[a];
            var row := c.jobs[g.job];
            var c1 := MoveJob(c, g.job, row.state, row.version, to);
            var c2 := BindWork(c1.0, g.driver, g.job, c.work[g.driver].state, work);
            c1.1 == 1 && c2.1 == 1 && c2.0 == Progress(c, a, to, work, g.custody)
  {
    WorkingFacts(c, ix, a);
  }

  lemma CustodyIs(c: Core, ix: Index, a: Id, to: State, work: WorkState, text: string)
    requires Linked(c, ix) && a in c.assignments && c.assignments[a].status.Working?
    ensures AssignmentRows(c, a)
    ensures var g := c.assignments[a];
            var row := c.jobs[g.job];
            var c1 := ConfirmCustody(MoveJob(c, g.job, row.state, row.version, to).0, a, text);
            BindWork(c1, g.driver, g.job, c.work[g.driver].state, work)
              == (Progress(c, a, to, work, if g.custody.None? then Some(text) else g.custody), 1)
  {
    WorkingFacts(c, ix, a);
    assert c.assignments[a := c.assignments[a]] == c.assignments;
  }

  /** UPDATE trips SET state, version, metering and fare WHERE id AND state AND version */
  function BillJob(c: Core, j: Job, from: State, version: nat, to: State, ride: Ride): (Core, nat) {
    if j in c.jobs && c.jobs[j].state == from && c.jobs[j].version == version
    then (c.(jobs := c.jobs[j := c.jobs[j].(state := to, version := version + 1, ride := ride)]), 1) else (c, 0)
  }

  /** The statements that end an assignment; a Delivery's record the handoff in between. */
  lemma ReleaseIs(
      c: Core, ix: Index, a: Id, status: AssignmentStatus, to: State, ride: Ride, handoff: Option<Proof>)
    requires Linked(c, ix) && a in c.assignments && c.assignments[a].status.Working?
    ensures AssignmentRows(c, a)
    ensures var g := c.assignments[a];
            var row := c.jobs[g.job];
            var c1 := BillJob(c, g.job, row.state, row.version, to, ride);
            var c2 := if handoff.Some? then InsertProof(c1.0, handoff.value) else c1.0;
            var c3 := EndAssignment(c2, a, status);
            c1.1 == 1 && c3.1 == 1
            && FreeWork(c3.0, g.driver, g.job, c.work[g.driver].state) == (Release(c, a, status, to, ride, handoff), 1)
  {
    WorkingFacts(c, ix, a);
  }

  /** The statements of a cancellation, which come in another order. */
  lemma DropOutIs(c: Core, ix: Index, a: Id)
    requires Linked(c, ix) && a in c.assignments && c.assignments[a].status.Working?
    requires AssignmentRows(c, a)
    requires var s := c.jobs[c.assignments[a].job].state; s.DriverToPickup? || s.AtPickup?
    ensures var g := c.assignments[a];
            var row := c.jobs[g.job];
            var c2 := FreeWork(EndAssignment(c, a, Dropped).0, g.driver, g.job, ToPickup);
            && EndAssignment(c, a, Dropped).1 == 1 && c2.1 == 1
            && MoveJob(c2.0, g.job, row.state, row.version, Cancelled) == (Release(c, a, Dropped, Cancelled, row.ride, None), 1)
  {
    WorkingFacts(c, ix, a);
  }
}
