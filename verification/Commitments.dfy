/**
 * The coupled invariant over the matching tables, and that every event keeps it.
 *
 * The invariant is stated with an Index that no table stores: the offers of each aggregate in
 * order of attempt, the one assignment and the one proof an aggregate can ever have, the one
 * Trip that consumes a quote, and a Customer's one current Trip. With it every clause is
 * universal, and uniqueness needs no counting.
 */
module Commitments {
  import opened Basics
  import opened Fare
  import opened Tables
  import opened Events

  datatype Index = Index(
    trail: map<Job, seq<Id>>, staff: map<Job, Id>, proof: map<Job, Id>,
    consumer: map<Id, Job>, riding: map<Id, Job>)

  function MaxOffers(j: Job): nat {
    if j.Trip? then 3 else 1
  }

  /** The aggregate's newest offer is pending. */
  predicate HasPending(c: Core, ix: Index, j: Job) {
    && j in ix.trail && |ix.trail[j]| > 0
    && Last(ix.trail[j]) in c.offers
    && c.offers[Last(ix.trail[j])].status.Pending?
  }

  /** The aggregate has an assignment with the given status. */
  predicate HasAssignment(c: Core, ix: Index, j: Job, status: AssignmentStatus) {
    && j in ix.staff
    && ix.staff[j] in c.assignments
    && c.assignments[ix.staff[j]].job == j
    && c.assignments[ix.staff[j]].status == status
  }

  /** What a Driver does while assigned to an aggregate in this state. */
  function WorkFor(s: State): WorkState {
    if s.InProgress? then OnTrip else ToPickup
  }

  /** A Driver holds nothing, or exactly one pending offer, or exactly one assignment. */
  predicate WorkOk(c: Core, ix: Index, d: Id)
    requires d in c.work
  {
    var w := c.work[d];
    match w.state
    case Offline => w.trip.None? && w.delivery.None?
    case Available => w.trip.None? && w.delivery.None?
    case Reserved =>
      && Current(w).Some?
      && HasPending(c, ix, Current(w).value)
      && c.offers[Last(ix.trail[Current(w).value])].driver == d
    case _ =>
      && Current(w).Some?
      && HasAssignment(c, ix, Current(w).value, Working)
      && c.assignments[ix.staff[Current(w).value]].driver == d
  }

  predicate OfferOk(c: Core, ix: Index, o: Id)
    requires o in c.offers
  {
    var f := c.offers[o];
    && f.job in c.jobs && f.job in ix.trail
    && 1 <= f.attempt <= |ix.trail[f.job]| && ix.trail[f.job][f.attempt - 1] == o
    && f.reservation in c.reservations
    && f.driver in c.work
    && (var r := c.reservations[f.reservation];
        && r.job == f.job && r.driver == f.driver && r.expiresAt == f.expiresAt
        && r.status == match f.status
                       case Pending => Active
                       case Accepted => Committed
                       case Expired => Lapsed
                       case _ => Released)
    && (f.status.Pending? ==>
          && f.attempt == |ix.trail[f.job]|
          && c.jobs[f.job].state.Matching?
          && c.work[f.driver].state.Reserved? && Current(c.work[f.driver]) == Some(f.job))
    && (f.status.Accepted? ==>
          && f.acceptedAt.Some? && f.acceptedAt.value < f.expiresAt && f.acceptedKey.Some?
          && f.job in ix.staff && ix.staff[f.job] in c.assignments
          && c.assignments[ix.staff[f.job]].offer == o)
  }

  predicate ReservationOk(c: Core, ix: Index, r: Id)
    requires r in c.reservations
  {
    c.reservations[r].status.Active? ==>
      && HasPending(c, ix, c.reservations[r].job)
      && c.offers[Last(ix.trail[c.reservations[r].job])].reservation == r
  }

  predicate AssignmentOk(c: Core, ix: Index, a: Id)
    requires a in c.assignments
  {
    var g := c.assignments[a];
    && g.job in c.jobs && g.job in ix.staff && ix.staff[g.job] == a
    && g.offer in c.offers && c.offers[g.offer].status.Accepted?
    && c.offers[g.offer].job == g.job && c.offers[g.offer].driver == g.driver
    && g.driver in c.work
    && match g.status
       case Working =>
         && Staffed(c.jobs[g.job].state)
         && c.work[g.driver].state == WorkFor(c.jobs[g.job].state)
         && Current(c.work[g.driver]) == Some(g.job)
       case Done => c.jobs[g.job].state.Completed?
       case Dropped => c.jobs[g.job].state.Cancelled?
  }

  predicate ProofOk(c: Core, ix: Index, p: Id)
    requires p in c.proofs
  {
    var q := c.proofs[p];
    && q.job.Delivery? && q.job in ix.proof && ix.proof[q.job] == p
    && HasAssignment(c, ix, q.job, Done)
    && q.assignment == ix.staff[q.job]
    && q.recordedBy == c.assignments[q.assignment].driver
  }

  /** How far a version can have grown; a Delivery's state determines it. */
  predicate VersionOk(j: Job, row: JobRow, offers: nat, pending: bool) {
    match j
    case Trip(_) =>
      var spent := offers - (if pending then 1 else 0);
      (match row.state
       case Requested => row.version == 0
       case Matching => 1 <= row.version <= 1 + spent
       case DriverToPickup => 2 <= row.version <= 1 + offers
       case AtPickup => 3 <= row.version <= 2 + offers
       case InProgress => 4 <= row.version <= 3 + offers
       case Completed => 5 <= row.version <= 4 + offers
       case NoDriverAvailable => 2 <= row.version <= 2 + offers
       case Cancelled => 1 <= row.version <= 3 + offers)
    case Delivery(_) =>
      !row.state.Cancelled? && row.version == DeliveryVersion(row.state)
  }

  function DeliveryVersion(s: State): nat {
    match s
    case Requested => 0
    case Matching => 1
    case AtPickup => 3
    case InProgress => 4
    case Completed => 5
    case _ => 2
  }

  /** No Driver is asked twice for the same aggregate. */
  predicate DistinctDrivers(c: Core, t: seq<Id>)
    requires forall k | 0 <= k < |t| :: t[k] in c.offers
  {
    forall k, l | 0 <= k < l < |t| :: c.offers[t[k]].driver != c.offers[t[l]].driver
  }

  predicate JobOk(c: Core, ix: Index, j: Job)
    requires j in c.jobs
  {
    var row := c.jobs[j];
    && j in ix.trail && |ix.trail[j]| <= MaxOffers(j)
    && (forall k | 0 <= k < |ix.trail[j]| ::
          && ix.trail[j][k] in c.offers
          && c.offers[ix.trail[j][k]].job == j && c.offers[ix.trail[j][k]].attempt == k + 1)
    && DistinctDrivers(c, ix.trail[j])
    && (j in ix.staff ==> ix.staff[j] in c.assignments && c.assignments[ix.staff[j]].job == j)
    && (row.state.Requested? ==> ix.trail[j] == [])
    && (row.state.Requested? || row.state.Matching? || row.state.NoDriverAvailable? ==> j !in ix.staff)
    && (Staffed(row.state) ==> HasAssignment(c, ix, j, Working))
    && (row.state.Completed? ==> HasAssignment(c, ix, j, Done))
    && VersionOk(j, row, |ix.trail[j]|, HasPending(c, ix, j))
    && (j.Delivery? ==>
          && row.ride.Parcel?
          && (row.state.InProgress? || row.state.Completed? ==> c.assignments[ix.staff[j]].custody.Some?)
          && (row.state.Completed? <==> j in ix.proof)
          && (j in ix.proof ==> ix.proof[j] in c.proofs && c.proofs[ix.proof[j]].job == j))
  }

  predicate IdsOk(c: Core) {
    && (forall j | j in c.jobs :: j.id < c.nextId)
    && (forall k | k in c.offers :: k < c.nextId)
    && (forall k | k in c.reservations :: k < c.nextId)
    && (forall k | k in c.assignments :: k < c.nextId)
    && (forall k | k in c.proofs :: k < c.nextId)
  }

  predicate Shape(c: Core, ix: Index) {
    && IdsOk(c)
    && ix.trail.Keys == c.jobs.Keys && ix.staff.Keys <= c.jobs.Keys && ix.proof.Keys <= c.jobs.Keys
  }

  ghost predicate Linked(c: Core, ix: Index) {
    && Shape(c, ix)
    && (forall d {:trigger WorkOk(c, ix, d)} | d in c.work :: WorkOk(c, ix, d))
    && (forall o {:trigger OfferOk(c, ix, o)} | o in c.offers :: OfferOk(c, ix, o))
    && (forall r {:trigger ReservationOk(c, ix, r)} | r in c.reservations :: ReservationOk(c, ix, r))
    && (forall a {:trigger AssignmentOk(c, ix, a)} | a in c.assignments :: AssignmentOk(c, ix, a))
    && (forall p {:trigger ProofOk(c, ix, p)} | p in c.proofs :: ProofOk(c, ix, p))
    && (forall j {:trigger JobOk(c, ix, j)} | j in c.jobs :: JobOk(c, ix, j))
  }

  // ---- One event concerns one aggregate and one Driver; everything else is as before.

  // Per table: from m to m' only rows of aggregate j (or the work row of Driver d) have changed.

  ghost predicate LocalJobs(m: map<Job, JobRow>, m': map<Job, JobRow>, j: Job) {
    && (forall i | i in m && i != j :: i in m' && m'[i] == m[i])
    && (forall i | i in m' :: i in m || i == j)
  }

  ghost predicate LocalWork(m: map<Id, Work>, m': map<Id, Work>, j: Job, d: Option<Id>) {
    && (forall e | e in m && d != Some(e) :: e in m' && m'[e] == m[e])
    && (forall e | e in m' :: e in m || d == Some(e))
    && (d.Some? ==> d.value in m' && (d.value in m ==> Current(m[d.value]) in {None, Some(j)}))
  }

  ghost predicate LocalOffers(m: map<Id, Offer>, m': map<Id, Offer>, j: Job) {
    && (forall o | o in m :: o in m' && m'[o].job == m[o].job)
    && (forall o | o in m' :: m'[o].job == j || (o in m && m'[o] == m[o]))
  }

  ghost predicate LocalReservations(m: map<Id, Reservation>, m': map<Id, Reservation>, j: Job) {
    && (forall r | r in m :: r in m' && m'[r].job == m[r].job)
    && (forall r | r in m' :: m'[r].job == j || (r in m && m'[r] == m[r]))
  }

  ghost predicate LocalAssignments(m: map<Id, Assignment>, m': map<Id, Assignment>, j: Job) {
    && (forall a | a in m :: a in m' && m'[a].job == m[a].job)
    && (forall a | a in m' :: m'[a].job == j || (a in m && m'[a] == m[a]))
  }

  ghost predicate LocalProofs(m: map<Id, Proof>, m': map<Id, Proof>, j: Job) {
    && (forall p | p in m :: p in m' && m'[p].job == m[p].job)
    && (forall p | p in m' :: m'[p].job == j || (p in m && m'[p] == m[p]))
  }

  ghost predicate LocalIndex(ix: Index, ix': Index, j: Job) {
    Others(ix.trail, ix'.trail, j) && Others(ix.staff, ix'.staff, j) && Others(ix.proof, ix'.proof, j)
  }

  /** From c to c' only rows of aggregate j, and the work row of Driver d if any, have changed. */
  ghost predicate Local(c: Core, ix: Index, c': Core, ix': Index, j: Job, d: Option<Id>) {
    && LocalJobs(c.jobs, c'.jobs, j) && LocalWork(c.work, c'.work, j, d)
    && LocalOffers(c.offers, c'.offers, j) && LocalReservations(c.reservations, c'.reservations, j)
    && LocalAssignments(c.assignments, c'.assignments, j) && LocalProofs(c.proofs, c'.proofs, j)
    && LocalIndex(ix, ix', j)
  }

  lemma LocalSelf(c: Core, ix: Index, j: Job)
    ensures Local(c, ix, c, ix, j, None)
  {
  }

  lemma LocalJob(m: map<Job, JobRow>, j: Job, row: JobRow)
    ensures LocalJobs(m, m[j := row], j)
  {
  }

  lemma LocalDriver(m: map<Id, Work>, j: Job, d: Id, w: Work)
    requires d in m ==> Current(m[d]) in {None, Some(j)}
    ensures LocalWork(m, m[d := w], j, Some(d))
  {
  }

  lemma LocalOffer(m: map<Id, Offer>, j: Job, o: Id, f: Offer)
    requires f.job == j && (o in m ==> m[o].job == j)
    ensures LocalOffers(m, m[o := f], j)
  {
  }

  lemma LocalReservation(m: map<Id, Reservation>, j: Job, r: Id, f: Reservation)
    requires f.job == j && (r in m ==> m[r].job == j)
    ensures LocalReservations(m, m[r := f], j)
  {
  }

  lemma LocalAssignment(m: map<Id, Assignment>, j: Job, a: Id, f: Assignment)
    requires f.job == j && (a in m ==> m[a].job == j)
    ensures LocalAssignments(m, m[a := f], j)
  {
  }

  lemma LocalProof(m: map<Id, Proof>, j: Job, p: Id, f: Proof)
    requires f.job == j && (p in m ==> m[p].job == j)
    ensures LocalProofs(m, m[p := f], j)
  {
  }

  predicate Others<T(==)>(m: map<Job, T>, m': map<Job, T>, j: Job) {
    m - {j} == m' - {j}
  }

  lemma OthersAt<T>(m: map<Job, T>, m': map<Job, T>, j: Job, i: Job)
    requires Others(m, m', j) && i != j
    ensures i in m <==> i in m'
    ensures i in m ==> m[i] == m'[i]
  {
    assert i in m <==> i in m - {j};
    assert i in m' <==> i in m' - {j};
  }

  lemma SameIndex(ix: Index, ix': Index, j: Job, i: Job)
    requires LocalIndex(ix, ix', j) && i != j
    ensures i in ix.trail <==> i in ix'.trail
    ensures i in ix.trail ==> ix.trail[i] == ix'.trail[i]
    ensures i in ix.staff <==> i in ix'.staff
    ensures i in ix.staff ==> ix.staff[i] == ix'.staff[i]
    ensures i in ix.proof <==> i in ix'.proof
    ensures i in ix.proof ==> ix.proof[i] == ix'.proof[i]
  {
    OthersAt(ix.trail, ix'.trail, j, i);
    OthersAt(ix.staff, ix'.staff, j, i);
    OthersAt(ix.proof, ix'.proof, j, i);
  }

  lemma WorkFrame(c: Core, ix: Index, c': Core, ix': Index, j: Job, d: Option<Id>, e: Id)
    requires Linked(c, ix) && Local(c, ix, c', ix', j, d) && e in c.work && d != Some(e)
    requires Current(c.work[e]) != Some(j)
    ensures WorkOk(c', ix', e)
  {
    assert WorkOk(c, ix, e);
    if Current(c.work[e]).Some? {
      SameIndex(ix, ix', j, Current(c.work[e]).value);
      assert JobOk(c, ix, Current(c.work[e]).value);
    }
  }

  lemma OfferFrame(c: Core, ix: Index, c': Core, ix': Index, j: Job, d: Option<Id>, o: Id)
    requires Linked(c, ix) && Local(c, ix, c', ix', j, d) && o in c'.offers && c'.offers[o].job != j
    ensures OfferOk(c', ix', o)
  {
    assert OfferOk(c, ix, o);
    SameIndex(ix, ix', j, c.offers[o].job);
    assert JobOk(c, ix, c.offers[o].job);
  }

  lemma ReservationFrame(c: Core, ix: Index, c': Core, ix': Index, j: Job, d: Option<Id>, r: Id)
    requires Linked(c, ix) && Local(c, ix, c', ix', j, d) && r in c'.reservations && c'.reservations[r].job != j
    ensures ReservationOk(c', ix', r)
  {
    assert ReservationOk(c, ix, r);
    SameIndex(ix, ix', j, c.reservations[r].job);
    if c.reservations[r].status.Active? { assert OfferOk(c, ix, Last(ix.trail[c.reservations[r].job])); }
  }

  lemma AssignmentFrame(c: Core, ix: Index, c': Core, ix': Index, j: Job, d: Option<Id>, a: Id)
    requires Linked(c, ix) && Local(c, ix, c', ix', j, d) && a in c'.assignments && c'.assignments[a].job != j
    ensures AssignmentOk(c', ix', a)
  {
    assert AssignmentOk(c, ix, a);
    SameIndex(ix, ix', j, c.assignments[a].job);
  }

  lemma ProofFrame(c: Core, ix: Index, c': Core, ix': Index, j: Job, d: Option<Id>, p: Id)
    requires Linked(c, ix) && Local(c, ix, c', ix', j, d) && p in c'.proofs && c'.proofs[p].job != j
    ensures ProofOk(c', ix', p)
  {
    assert ProofOk(c, ix, p);
    SameIndex(ix, ix', j, c.proofs[p].job);
  }

  lemma JobFrame(c: Core, ix: Index, c': Core, ix': Index, j: Job, d: Option<Id>, i: Job)
    requires Linked(c, ix) && Local(c, ix, c', ix', j, d) && i in c.jobs && i != j
    ensures JobOk(c', ix', i)
  {
    assert JobOk(c, ix, i);
    SameIndex(ix, ix', j, i);
  }

  /** What an event must establish itself: the clauses of its own aggregate and Driver. */
  ghost predicate Own(c: Core, ix: Index, j: Job, d: Option<Id>) {
    && (j in c.jobs ==> JobOk(c, ix, j))
    && (forall e | e in c.work && (d == Some(e) || Current(c.work[e]) == Some(j)) :: WorkOk(c, ix, e))
    && (forall o | o in c.offers && c.offers[o].job == j :: OfferOk(c, ix, o))
    && (forall r | r in c.reservations && c.reservations[r].job == j :: ReservationOk(c, ix, r))
    && (forall a | a in c.assignments && c.assignments[a].job == j :: AssignmentOk(c, ix, a))
    && (forall p | p in c.proofs && c.proofs[p].job == j :: ProofOk(c, ix, p))
  }

  lemma LinkedFrom(c: Core, ix: Index, c': Core, ix': Index, j: Job, d: Option<Id>)
    requires Linked(c, ix) && Local(c, ix, c', ix', j, d) && Own(c', ix', j, d) && Shape(c', ix')
    ensures Linked(c', ix')
  {
    forall e | e in c'.work ensures WorkOk(c', ix', e) {
      if d != Some(e) && Current(c'.work[e]) != Some(j) { WorkFrame(c, ix, c', ix', j, d, e); }
    }
    forall o | o in c'.offers ensures OfferOk(c', ix', o) {
      if c'.offers[o].job != j { OfferFrame(c, ix, c', ix', j, d, o); }
    }
    forall r | r in c'.reservations ensures ReservationOk(c', ix', r) {
      if c'.reservations[r].job != j { ReservationFrame(c, ix, c', ix', j, d, r); }
    }
    forall a | a in c'.assignments ensures AssignmentOk(c', ix', a) {
      if c'.assignments[a].job != j { AssignmentFrame(c, ix, c', ix', j, d, a); }
    }
    forall p | p in c'.proofs ensures ProofOk(c', ix', p) {
      if c'.proofs[p].job != j { ProofFrame(c, ix, c', ix', j, d, p); }
    }
    forall i | i in c'.jobs ensures JobOk(c', ix', i) {
      if i != j { JobFrame(c, ix, c', ix', j, d, i); }
    }
  }

  // ---- What the invariant says of one aggregate

  /** Only a staffed or ended aggregate has an assignment, and only a completed one a proof. */
  lemma Unstaffed(c: Core, ix: Index, j: Job)
    requires Linked(c, ix) && j in c.jobs && !Staffed(c.jobs[j].state)
    ensures forall a | a in c.assignments && c.assignments[a].job == j :: Terminal(c.jobs[j].state) && !c.assignments[a].status.Working?
    ensures forall e | e in c.work && Current(c.work[e]) == Some(j) :: HasPending(c, ix, j)
    ensures forall p | p in c.proofs && c.proofs[p].job == j :: c.jobs[j].state.Completed?
  {
    forall a | a in c.assignments ensures c.assignments[a].job == j ==> Terminal(c.jobs[j].state) && !c.assignments[a].status.Working? {
      assert AssignmentOk(c, ix, a);
    }
    forall e | e in c.work ensures Current(c.work[e]) == Some(j) ==> HasPending(c, ix, j) {
      assert WorkOk(c, ix, e);
    }
    forall p | p in c.proofs ensures c.proofs[p].job == j ==> c.jobs[j].state.Completed? {
      assert ProofOk(c, ix, p);
      assert JobOk(c, ix, j);
    }
  }

  lemma Unreserved(c: Core, ix: Index, j: Job)
    requires Linked(c, ix) && !HasPending(c, ix, j)
    ensures forall r | r in c.reservations && c.reservations[r].job == j :: !c.reservations[r].status.Active?
  {
    forall r | r in c.reservations ensures c.reservations[r].job == j ==> !c.reservations[r].status.Active? {
      assert ReservationOk(c, ix, r);
    }
  }

  lemma NonePending(c: Core, ix: Index, j: Job)
    requires Linked(c, ix) && !HasPending(c, ix, j)
    ensures forall o | o in c.offers && c.offers[o].job == j :: !c.offers[o].status.Pending?
  {
    forall o | o in c.offers ensures c.offers[o].job == j ==> !c.offers[o].status.Pending? {
      assert OfferOk(c, ix, o);
    }
  }

  /** A pending offer is the newest one of a matching aggregate, and holds its Driver and reservation. */
  lemma PendingFacts(c: Core, ix: Index, o: Id)
    requires Linked(c, ix) && o in c.offers && c.offers[o].status.Pending?
    ensures OfferRows(c, o)
    ensures var f := c.offers[o];
            && f.job in c.jobs && c.jobs[f.job].state.Matching?
            && HasPending(c, ix, f.job) && Last(ix.trail[f.job]) == o
            && c.reservations[f.reservation] == Reservation(f.job, f.driver, Active, f.expiresAt)
            && c.work[f.driver].state.Reserved? && Current(c.work[f.driver]) == Some(f.job)
  {
    assert OfferOk(c, ix, o);
  }

  /** Nobody but the pending offer's Driver and reservation is bound to its aggregate. */
  lemma OnlyPending(c: Core, ix: Index, o: Id)
    requires Linked(c, ix) && o in c.offers && c.offers[o].status.Pending?
    ensures forall r | r in c.reservations && c.reservations[r].job == c.offers[o].job && c.reservations[r].status.Active? ::
              r == c.offers[o].reservation
    ensures forall e | e in c.work && Current(c.work[e]) == Some(c.offers[o].job) :: e == c.offers[o].driver
  {
    PendingFacts(c, ix, o);
    var j := c.offers[o].job;
    forall r | r in c.reservations
      ensures c.reservations[r].job == j && c.reservations[r].status.Active? ==> r == c.offers[o].reservation
    {
      assert ReservationOk(c, ix, r);
    }
    assert JobOk(c, ix, j);
    forall e | e in c.work ensures Current(c.work[e]) == Some(j) ==> e == c.offers[o].driver {
      assert WorkOk(c, ix, e);
    }
  }
}
