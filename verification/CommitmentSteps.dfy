/** Every event keeps the coupled invariant. */
module CommitmentSteps {
  import opened Basics
  import opened Fare
  import opened Tables
  import opened Events
  import opened Commitments

  // ---- OpenOffer

  /** A Driver who is available may be offered an aggregate that is matching and has no pending offer. */
  ghost predicate CanOpen(c: Core, ix: Index, j: Job, d: Id, attempt: nat) {
    && Linked(c, ix)
    && j in c.jobs && c.jobs[j].state.Matching? && !HasPending(c, ix, j)
    && d in c.work && c.work[d].state.Available?
    && attempt == |ix.trail[j]| + 1 <= MaxOffers(j)
    && (forall o | o in c.offers && c.offers[o].job == j :: c.offers[o].driver != d)
  }

  function OpenIndex(c: Core, ix: Index, j: Job): Index
    requires j in ix.trail
  {
    ix.(trail := ix.trail[j := ix.trail[j] + [c.nextId + 1]])
  }

  lemma JobStands(c: Core, ix: Index, j: Job)
    requires Linked(c, ix) && j in c.jobs
    ensures JobOk(c, ix, j)
  {
  }

  lemma LinkedShape(c: Core, ix: Index)
    requires Linked(c, ix)
    ensures Shape(c, ix)
  {
  }

  lemma FreeIfAvailable(c: Core, ix: Index, d: Id)
    requires Linked(c, ix) && d in c.work && c.work[d].state.Available?
    ensures Current(c.work[d]).None?
  {
    assert WorkOk(c, ix, d);
  }

  lemma OpenLocal(c: Core, ix: Index, j: Job, d: Id, expiresAt: Time, attempt: nat)
    requires CanOpen(c, ix, j, d, attempt)
    ensures Local(c, ix, OpenOffer(c, j, d, expiresAt, attempt), OpenIndex(c, ix, j), j, Some(d))
    ensures Shape(OpenOffer(c, j, d, expiresAt, attempt), OpenIndex(c, ix, j))
  {
    hide Linked, WorkOk, OfferOk, ReservationOk, AssignmentOk, ProofOk, JobOk;
    LinkedShape(c, ix);
    FreeIfAvailable(c, ix, d);
    var c' := OpenOffer(c, j, d, expiresAt, attempt);
    LocalSelf(c, ix, j);
    LocalDriver(c.work, j, d, c'.work[d]);
    LocalReservation(c.reservations, j, c.nextId, c'.reservations[c.nextId]);
    LocalOffer(c.offers, j, c.nextId + 1, c'.offers[c.nextId + 1]);
    hide LocalJobs, LocalWork, LocalOffers, LocalReservations, LocalAssignments, LocalProofs;
  }

  lemma OpenOwnNew(c: Core, ix: Index, j: Job, d: Id, expiresAt: Time, attempt: nat)
    requires CanOpen(c, ix, j, d, attempt)
    ensures JobOk(OpenOffer(c, j, d, expiresAt, attempt), OpenIndex(c, ix, j), j)
    ensures OfferOk(OpenOffer(c, j, d, expiresAt, attempt), OpenIndex(c, ix, j), c.nextId + 1)
    ensures ReservationOk(OpenOffer(c, j, d, expiresAt, attempt), OpenIndex(c, ix, j), c.nextId)
    ensures WorkOk(OpenOffer(c, j, d, expiresAt, attempt), OpenIndex(c, ix, j), d)
  {
    assert WorkOk(c, ix, d);
    assert JobOk(c, ix, j);
  }

  lemma OpenOwnOld(c: Core, ix: Index, j: Job, d: Id, expiresAt: Time, attempt: nat, o: Id)
    requires CanOpen(c, ix, j, d, attempt) && o in c.offers && c.offers[o].job == j
    ensures OfferOk(OpenOffer(c, j, d, expiresAt, attempt), OpenIndex(c, ix, j), o)
  {
    assert OfferOk(c, ix, o);
    assert JobOk(c, ix, j);
  }

  lemma OpenOwn(c: Core, ix: Index, j: Job, d: Id, expiresAt: Time, attempt: nat)
    requires CanOpen(c, ix, j, d, attempt)
    ensures Own(OpenOffer(c, j, d, expiresAt, attempt), OpenIndex(c, ix, j), j, Some(d))
  {
    var c', ix' := OpenOffer(c, j, d, expiresAt, attempt), OpenIndex(c, ix, j);
    OpenOwnNew(c, ix, j, d, expiresAt, attempt);
    Unstaffed(c, ix, j);
    Unreserved(c, ix, j);
    forall o | o in c.offers && c.offers[o].job == j ensures OfferOk(c', ix', o) {
      OpenOwnOld(c, ix, j, d, expiresAt, attempt, o);
    }
    hide OfferOk, JobOk, WorkOk;
  }

  lemma OpenOfferKeeps(c: Core, ix: Index, j: Job, d: Id, expiresAt: Time, attempt: nat)
    requires CanOpen(c, ix, j, d, attempt)
    ensures Linked(OpenOffer(c, j, d, expiresAt, attempt), OpenIndex(c, ix, j))
  {
    var c', ix' := OpenOffer(c, j, d, expiresAt, attempt), OpenIndex(c, ix, j);
    hide Linked, Local, Own, Shape, OpenOffer, OpenIndex;
    OpenLocal(c, ix, j, d, expiresAt, attempt);
    OpenOwn(c, ix, j, d, expiresAt, attempt);
    LinkedFrom(c, ix, c', ix', j, Some(d));
  }

  // ---- Move

  /** The steps of an aggregate that nobody is at work on; a self-loop spends a resolved offer. */
  predicate Unattended(j: Job, row: JobRow, to: State, offers: nat) {
    || (row.state.Requested? && to.Matching?)
    || (row.state.Matching? && to.NoDriverAvailable?)
    || (row.state.Matching? && to.Matching? && j.Trip? && row.version <= offers)
    || (j.Trip? && to.Cancelled? && (row.state.Requested? || row.state.Matching?))
  }

  ghost predicate CanMove(c: Core, ix: Index, j: Job, to: State) {
    && Linked(c, ix) && j in c.jobs && !HasPending(c, ix, j)
    && Unattended(j, c.jobs[j], to, |ix.trail[j]|)
  }

  lemma MoveLocal(c: Core, ix: Index, j: Job, to: State)
    requires CanMove(c, ix, j, to)
    ensures Local(c, ix, Move(c, j, to), ix, j, None) && Shape(Move(c, j, to), ix)
  {
    LocalSelf(c, ix, j);
    LocalJob(c.jobs, j, Move(c, j, to).jobs[j]);
    hide LocalJobs, LocalWork, LocalOffers, LocalReservations, LocalAssignments, LocalProofs;
  }

  lemma MoveOwnOffer(c: Core, ix: Index, j: Job, to: State, o: Id)
    requires CanMove(c, ix, j, to) && o in c.offers && c.offers[o].job == j && !c.offers[o].status.Pending?
    ensures OfferOk(Move(c, j, to), ix, o)
  {
    assert OfferOk(c, ix, o);
  }

  lemma MoveOwnJob(c: Core, ix: Index, j: Job, to: State)
    requires CanMove(c, ix, j, to)
    ensures JobOk(Move(c, j, to), ix, j)
  {
    assert JobOk(c, ix, j);
  }

  lemma MoveOwn(c: Core, ix: Index, j: Job, to: State)
    requires CanMove(c, ix, j, to)
    ensures Own(Move(c, j, to), ix, j, None)
  {
    MoveOwnJob(c, ix, j, to);
    NonePending(c, ix, j);
    Unreserved(c, ix, j);
    Unstaffed(c, ix, j);
    forall o | o in c.offers && c.offers[o].job == j ensures OfferOk(Move(c, j, to), ix, o) {
      MoveOwnOffer(c, ix, j, to, o);
    }
    hide OfferOk, JobOk, WorkOk;
  }

  lemma MoveKeeps(c: Core, ix: Index, j: Job, to: State)
    requires CanMove(c, ix, j, to)
    ensures Linked(Move(c, j, to), ix)
  {
    var c' := Move(c, j, to);
    hide Linked, Local, Own, Shape, Move;
    MoveLocal(c, ix, j, to);
    MoveOwn(c, ix, j, to);
    LinkedFrom(c, ix, c', ix, j, None);
  }

  // ---- ShutOffer

  /** An offer that is still pending, and how it may end without acceptance. */
  ghost predicate CanShut(c: Core, ix: Index, o: Id, status: OfferStatus, released: ReservationStatus) {
    && Linked(c, ix) && o in c.offers && c.offers[o].status.Pending? && OfferRows(c, o)
    && (if status.Expired? then released.Lapsed? else (status.Rejected? || status.Revoked?) && released.Released?)
  }

  lemma ShutLocal(c: Core, ix: Index, o: Id, status: OfferStatus, released: ReservationStatus)
    requires Shape(c, ix) && OfferRows(c, o) && c.offers[o].job in c.jobs
    requires c.reservations[c.offers[o].reservation].job == c.offers[o].job
    requires Current(c.work[c.offers[o].driver]) == Some(c.offers[o].job)
    ensures Local(c, ix, ShutOffer(c, o, status, released), ix, c.offers[o].job, Some(c.offers[o].driver))
    ensures Shape(ShutOffer(c, o, status, released), ix)
  {
    var c', f := ShutOffer(c, o, status, released), c.offers[o];
    LocalSelf(c, ix, f.job);
    LocalDriver(c.work, f.job, f.driver, c'.work[f.driver]);
    LocalReservation(c.reservations, f.job, f.reservation, c'.reservations[f.reservation]);
    LocalOffer(c.offers, f.job, o, c'.offers[o]);
    hide LocalJobs, LocalWork, LocalOffers, LocalReservations, LocalAssignments, LocalProofs;
  }

  lemma ShutOwnRows(c: Core, ix: Index, o: Id, status: OfferStatus, released: ReservationStatus)
    requires CanShut(c, ix, o, status, released)
    ensures var c', j := ShutOffer(c, o, status, released), c.offers[o].job;
            && j in c'.jobs && JobOk(c', ix, j) && !HasPending(c', ix, j) && OfferOk(c', ix, o)
            && (j.Trip? ==> c'.jobs[j].version <= |ix.trail[j]|)
            && WorkOk(c', ix, c.offers[o].driver)
  {
    PendingFacts(c, ix, o);
    assert OfferOk(c, ix, o);
    assert JobOk(c, ix, c.offers[o].job);
  }

  lemma ShutOwnOld(c: Core, ix: Index, o: Id, status: OfferStatus, released: ReservationStatus, p: Id)
    requires CanShut(c, ix, o, status, released)
    requires p in c.offers && c.offers[p].job == c.offers[o].job && p != o
    ensures OfferOk(ShutOffer(c, o, status, released), ix, p)
  {
    PendingFacts(c, ix, o);
    assert OfferOk(c, ix, p);
    assert ReservationOk(c, ix, c.offers[o].reservation);
  }

  lemma ShutOwn(c: Core, ix: Index, o: Id, status: OfferStatus, released: ReservationStatus)
    requires CanShut(c, ix, o, status, released)
    ensures Own(ShutOffer(c, o, status, released), ix, c.offers[o].job, Some(c.offers[o].driver))
  {
    var c', j := ShutOffer(c, o, status, released), c.offers[o].job;
    PendingFacts(c, ix, o);
    OnlyPending(c, ix, o);
    ShutOwnRows(c, ix, o, status, released);
    Unstaffed(c, ix, j);
    forall p | p in c'.offers && c'.offers[p].job == j ensures OfferOk(c', ix, p) {
      if p != o { ShutOwnOld(c, ix, o, status, released, p); }
    }
    hide OfferOk, JobOk, WorkOk;
  }

  lemma ShutOfferKeeps(c: Core, ix: Index, o: Id, status: OfferStatus, released: ReservationStatus)
    requires CanShut(c, ix, o, status, released)
    ensures Linked(ShutOffer(c, o, status, released), ix)
    ensures !HasPending(ShutOffer(c, o, status, released), ix, c.offers[o].job)
    ensures c.offers[o].job in ix.trail
    ensures c.offers[o].job.Trip? && c.offers[o].job in c.jobs ==>
              c.jobs[c.offers[o].job].version <= |ix.trail[c.offers[o].job]|
  {
    var c' := ShutOffer(c, o, status, released);
    ShutOwnRows(c, ix, o, status, released);
    PendingFacts(c, ix, o);
    hide Local, Own, ShutOffer;
    ShutLocal(c, ix, o, status, released);
    ShutOwn(c, ix, o, status, released);
    LinkedFrom(c, ix, c', ix, c.offers[o].job, Some(c.offers[o].driver));
  }

  // ---- Engage

  /** A pending offer may be accepted before its deadline. */
  ghost predicate CanEngage(c: Core, ix: Index, o: Id, now: Time) {
    && Linked(c, ix) && o in c.offers && c.offers[o].status.Pending? && OfferRows(c, o)
    && c.offers[o].job in c.jobs && now < c.offers[o].expiresAt
  }

  function EngageIndex(c: Core, ix: Index, o: Id): Index
    requires o in c.offers
  {
    ix.(staff := ix.staff[c.offers[o].job := c.nextId])
  }

  lemma EngageLocal(c: Core, ix: Index, o: Id, key: Id, now: Time)
    requires Shape(c, ix) && OfferRows(c, o) && c.offers[o].job in c.jobs
    requires c.reservations[c.offers[o].reservation].job == c.offers[o].job
    requires Current(c.work[c.offers[o].driver]) == Some(c.offers[o].job)
    ensures Local(c, ix, Engage(c, o, key, now), EngageIndex(c, ix, o), c.offers[o].job, Some(c.offers[o].driver))
    ensures Shape(Engage(c, o, key, now), EngageIndex(c, ix, o))
  {
    hide LocalJobs, LocalWork, LocalOffers, LocalReservations, LocalAssignments, LocalProofs;
    var c', f := Engage(c, o, key, now), c.offers[o];
    LocalSelf(c, ix, f.job);
    LocalJob(c.jobs, f.job, c'.jobs[f.job]);
    LocalDriver(c.work, f.job, f.driver, c'.work[f.driver]);
    LocalReservation(c.reservations, f.job, f.reservation, c'.reservations[f.reservation]);
    LocalOffer(c.offers, f.job, o, c'.offers[o]);
    LocalAssignment(c.assignments, f.job, c.nextId, c'.assignments[c.nextId]);
  }

  lemma EngageOwnJob(c: Core, ix: Index, o: Id, key: Id, now: Time)
    requires CanEngage(c, ix, o, now)
    ensures var c', ix' := Engage(c, o, key, now), EngageIndex(c, ix, o);
            c.offers[o].job in c'.jobs && JobOk(c', ix', c.offers[o].job)
  {
    hide Linked;
    PendingFacts(c, ix, o);
    JobStands(c, ix, c.offers[o].job);
  }

  lemma EngageOwnRows(c: Core, ix: Index, o: Id, key: Id, now: Time)
    requires CanEngage(c, ix, o, now)
    ensures var c', ix' := Engage(c, o, key, now), EngageIndex(c, ix, o);
            && OfferOk(c', ix', o)
            && WorkOk(c', ix', c.offers[o].driver) && AssignmentOk(c', ix', c.nextId)
  {
    PendingFacts(c, ix, o);
    assert OfferOk(c, ix, o);
    assert JobOk(c, ix, c.offers[o].job);
  }

  lemma EngageOwnOld(c: Core, ix: Index, o: Id, key: Id, now: Time, p: Id)
    requires CanEngage(c, ix, o, now)
    requires p in c.offers && c.offers[p].job == c.offers[o].job && p != o
    ensures OfferOk(Engage(c, o, key, now), EngageIndex(c, ix, o), p)
  {
    PendingFacts(c, ix, o);
    assert OfferOk(c, ix, p);
    assert ReservationOk(c, ix, c.offers[o].reservation);
    assert JobOk(c, ix, c.offers[o].job);
  }

  lemma EngageOwn(c: Core, ix: Index, o: Id, key: Id, now: Time)
    requires CanEngage(c, ix, o, now)
    ensures Own(Engage(c, o, key, now), EngageIndex(c, ix, o), c.offers[o].job, Some(c.offers[o].driver))
  {
    var c', ix', j := Engage(c, o, key, now), EngageIndex(c, ix, o), c.offers[o].job;
    PendingFacts(c, ix, o);
    OnlyPending(c, ix, o);
    EngageOwnJob(c, ix, o, key, now);
    EngageOwnRows(c, ix, o, key, now);
    Unstaffed(c, ix, j);
    forall p | p in c'.offers && c'.offers[p].job == j ensures OfferOk(c', ix', p) {
      if p != o { EngageOwnOld(c, ix, o, key, now, p); }
    }
    hide OfferOk, JobOk, WorkOk, AssignmentOk;
  }

  lemma EngageKeeps(c: Core, ix: Index, o: Id, key: Id, now: Time)
    requires CanEngage(c, ix, o, now)
    ensures Linked(Engage(c, o, key, now), EngageIndex(c, ix, o))
  {
    var c', ix' := Engage(c, o, key, now), EngageIndex(c, ix, o);
    PendingFacts(c, ix, o);
    hide Local, Own, Engage, EngageIndex;
    EngageLocal(c, ix, o, key, now);
    EngageOwn(c, ix, o, key, now);
    LinkedFrom(c, ix, c', ix', c.offers[o].job, Some(c.offers[o].driver));
  }

  // ---- Progress

  /** A working assignment goes with a staffed aggregate and binds its Driver to it. */
  lemma WorkingFacts(c: Core, ix: Index, a: Id)
    requires Linked(c, ix) && a in c.assignments && c.assignments[a].status.Working?
    ensures AssignmentRows(c, a)
    ensures var g := c.assignments[a];
            && Staffed(c.jobs[g.job].state) && g.job in ix.staff && ix.staff[g.job] == a
            && c.work[g.driver].state == WorkFor(c.jobs[g.job].state) && Current(c.work[g.driver]) == Some(g.job)
            && !HasPending(c, ix, g.job)
    ensures forall b | b in c.assignments && c.assignments[b].job == c.assignments[a].job :: b == a
    ensures forall e | e in c.work && Current(c.work[e]) == Some(c.assignments[a].job) :: e == c.assignments[a].driver
    ensures forall p | p in c.proofs :: c.proofs[p].job != c.assignments[a].job
  {
    var j := c.assignments[a].job;
    assert AssignmentOk(c, ix, a);
    assert JobOk(c, ix, j);
    assert !HasPending(c, ix, j) by { if HasPending(c, ix, j) { PendingFacts(c, ix, Last(ix.trail[j])); } }
    forall b | b in c.assignments ensures c.assignments[b].job == j ==> b == a { assert AssignmentOk(c, ix, b); }
    forall e | e in c.work ensures Current(c.work[e]) == Some(j) ==> e == c.assignments[a].driver {
      assert WorkOk(c, ix, e);
    }
    forall p | p in c.proofs ensures c.proofs[p].job != j { assert ProofOk(c, ix, p); }
  }

  /** Arrival, then the start; the start of a Delivery records custody. */
  ghost predicate CanProgress(c: Core, ix: Index, a: Id, to: State, work: WorkState, custody: Option<string>) {
    && Linked(c, ix) && a in c.assignments && c.assignments[a].status.Working? && AssignmentRows(c, a)
    && (var s := c.jobs[c.assignments[a].job].state;
        (s.DriverToPickup? && to.AtPickup?) || (s.AtPickup? && to.InProgress?))
    && work == WorkFor(to)
    && (c.assignments[a].job.Delivery? && to.InProgress? ==> custody.Some?)
  }

  lemma ProgressLocal(c: Core, ix: Index, a: Id, to: State, work: WorkState, custody: Option<string>)
    requires Shape(c, ix) && AssignmentRows(c, a)
    requires Current(c.work[c.assignments[a].driver]) == Some(c.assignments[a].job)
    ensures Local(c, ix, Progress(c, a, to, work, custody), ix, c.assignments[a].job, Some(c.assignments[a].driver))
    ensures Shape(Progress(c, a, to, work, custody), ix)
  {
    var c', g := Progress(c, a, to, work, custody), c.assignments[a];
    LocalSelf(c, ix, g.job);
    LocalJob(c.jobs, g.job, c'.jobs[g.job]);
    LocalDriver(c.work, g.job, g.driver, c'.work[g.driver]);
    LocalAssignment(c.assignments, g.job, a, c'.assignments[a]);
    hide LocalJobs, LocalWork, LocalOffers, LocalReservations, LocalAssignments, LocalProofs;
  }

  lemma ProgressOwnRows(c: Core, ix: Index, a: Id, to: State, work: WorkState, custody: Option<string>)
    requires CanProgress(c, ix, a, to, work, custody)
    ensures var c' := Progress(c, a, to, work, custody);
            && c.assignments[a].job in c'.jobs && JobOk(c', ix, c.assignments[a].job)
            && WorkOk(c', ix, c.assignments[a].driver) && AssignmentOk(c', ix, a)
  {
    WorkingFacts(c, ix, a);
    assert AssignmentOk(c, ix, a);
    assert JobOk(c, ix, c.assignments[a].job);
  }

  lemma ProgressOwnOffer(c: Core, ix: Index, a: Id, to: State, work: WorkState, custody: Option<string>, p: Id)
    requires CanProgress(c, ix, a, to, work, custody)
    requires p in c.offers && c.offers[p].job == c.assignments[a].job && !c.offers[p].status.Pending?
    ensures OfferOk(Progress(c, a, to, work, custody), ix, p)
  {
    assert OfferOk(c, ix, p);
  }

  lemma ProgressOwn(c: Core, ix: Index, a: Id, to: State, work: WorkState, custody: Option<string>)
    requires CanProgress(c, ix, a, to, work, custody)
    ensures Own(Progress(c, a, to, work, custody), ix, c.assignments[a].job, Some(c.assignments[a].driver))
  {
    var c', j := Progress(c, a, to, work, custody), c.assignments[a].job;
    WorkingFacts(c, ix, a);
    NonePending(c, ix, j);
    Unreserved(c, ix, j);
    ProgressOwnRows(c, ix, a, to, work, custody);
    forall p | p in c'.offers && c'.offers[p].job == j ensures OfferOk(c', ix, p) {
      ProgressOwnOffer(c, ix, a, to, work, custody, p);
    }
    hide OfferOk, JobOk, WorkOk, AssignmentOk;
  }

  lemma ProgressKeeps(c: Core, ix: Index, a: Id, to: State, work: WorkState, custody: Option<string>)
    requires CanProgress(c, ix, a, to, work, custody)
    ensures Linked(Progress(c, a, to, work, custody), ix)
  {
    var c' := Progress(c, a, to, work, custody);
    WorkingFacts(c, ix, a);
    hide Local, Own, Progress;
    ProgressLocal(c, ix, a, to, work, custody);
    ProgressOwn(c, ix, a, to, work, custody);
    LinkedFrom(c, ix, c', ix, c.assignments[a].job, Some(c.assignments[a].driver));
  }

  // ---- Release

  /** Completion from InProgress, with the handoff of a Delivery; or cancellation of a Trip before it starts. */
  ghost predicate CanRelease(c: Core, ix: Index, a: Id, status: AssignmentStatus, to: State, ride: Ride, handoff: Option<Proof>) {
    && Linked(c, ix) && a in c.assignments && c.assignments[a].status.Working? && AssignmentRows(c, a)
    && (var g := c.assignments[a];
        var s := c.jobs[g.job].state;
        (ride.Parcel? <==> c.jobs[g.job].ride.Parcel?) &&
        if to.Completed? then
          && status.Done? && s.InProgress? && (g.job.Delivery? <==> handoff.Some?)
          && (handoff.Some? ==>
                handoff.value.job == g.job && handoff.value.assignment == a && handoff.value.recordedBy == g.driver)
        else
          status.Dropped? && to.Cancelled? && g.job.Trip? && handoff.None? && (s.DriverToPickup? || s.AtPickup?))
  }

  function ReleaseIndex(c: Core, ix: Index, a: Id, handoff: Option<Proof>): Index
    requires a in c.assignments
  {
    if handoff.Some? then ix.(proof := ix.proof[c.assignments[a].job := c.nextId]) else ix
  }

  lemma ReleaseLocal(c: Core, ix: Index, a: Id, status: AssignmentStatus, to: State, ride: Ride, handoff: Option<Proof>)
    requires Shape(c, ix) && AssignmentRows(c, a)
    requires Current(c.work[c.assignments[a].driver]) == Some(c.assignments[a].job)
    requires handoff.Some? ==> handoff.value.job == c.assignments[a].job
    ensures Local(c, ix, Release(c, a, status, to, ride, handoff), ReleaseIndex(c, ix, a, handoff),
                  c.assignments[a].job, Some(c.assignments[a].driver))
    ensures Shape(Release(c, a, status, to, ride, handoff), ReleaseIndex(c, ix, a, handoff))
  {
    hide LocalJobs, LocalWork, LocalOffers, LocalReservations, LocalAssignments, LocalProofs;
    var c', g := Release(c, a, status, to, ride, handoff), c.assignments[a];
    LocalSelf(c, ix, g.job);
    LocalJob(c.jobs, g.job, c'.jobs[g.job]);
    LocalDriver(c.work, g.job, g.driver, c'.work[g.driver]);
    LocalAssignment(c.assignments, g.job, a, c'.assignments[a]);
    if handoff.Some? { LocalProof(c.proofs, g.job, c.nextId, handoff.value); }
  }

  lemma ReleaseOwnJob(c: Core, ix: Index, a: Id, status: AssignmentStatus, to: State, ride: Ride, handoff: Option<Proof>)
    requires CanRelease(c, ix, a, status, to, ride, handoff)
    ensures var c', ix' := Release(c, a, status, to, ride, handoff), ReleaseIndex(c, ix, a, handoff);
            c.assignments[a].job in c'.jobs && JobOk(c', ix', c.assignments[a].job)
  {
    hide Linked;
    WorkingFacts(c, ix, a);
    JobStands(c, ix, c.assignments[a].job);
  }

  lemma ReleaseOwnRows(
      c: Core, ix: Index, a: Id, status: AssignmentStatus, to: State, ride: Ride, handoff: Option<Proof>)
    requires CanRelease(c, ix, a, status, to, ride, handoff)
    ensures var c', ix' := Release(c, a, status, to, ride, handoff), ReleaseIndex(c, ix, a, handoff);
            && WorkOk(c', ix', c.assignments[a].driver) && AssignmentOk(c', ix', a)
            && (handoff.Some? ==> ProofOk(c', ix', c.nextId))
  {
    WorkingFacts(c, ix, a);
    assert AssignmentOk(c, ix, a);
    assert WorkOk(c, ix, c.assignments[a].driver);
    assert JobOk(c, ix, c.assignments[a].job);
  }

  lemma ReleaseOwnOffer(
      c: Core, ix: Index, a: Id, status: AssignmentStatus, to: State, ride: Ride, handoff: Option<Proof>, p: Id)
    requires CanRelease(c, ix, a, status, to, ride, handoff)
    requires p in c.offers && c.offers[p].job == c.assignments[a].job && !c.offers[p].status.Pending?
    ensures OfferOk(Release(c, a, status, to, ride, handoff), ReleaseIndex(c, ix, a, handoff), p)
  {
    assert OfferOk(c, ix, p);
  }

  lemma ReleaseOwn(c: Core, ix: Index, a: Id, status: AssignmentStatus, to: State, ride: Ride, handoff: Option<Proof>)
    requires CanRelease(c, ix, a, status, to, ride, handoff)
    ensures Own(Release(c, a, status, to, ride, handoff), ReleaseIndex(c, ix, a, handoff),
                c.assignments[a].job, Some(c.assignments[a].driver))
  {
    var c', ix', j := Release(c, a, status, to, ride, handoff), ReleaseIndex(c, ix, a, handoff), c.assignments[a].job;
    WorkingFacts(c, ix, a);
    NonePending(c, ix, j);
    Unreserved(c, ix, j);
    ReleaseOwnJob(c, ix, a, status, to, ride, handoff);
    ReleaseOwnRows(c, ix, a, status, to, ride, handoff);
    forall p | p in c'.offers && c'.offers[p].job == j ensures OfferOk(c', ix', p) {
      ReleaseOwnOffer(c, ix, a, status, to, ride, handoff, p);
    }
    hide OfferOk, JobOk, WorkOk, AssignmentOk, ProofOk;
  }

  lemma ReleaseKeeps(c: Core, ix: Index, a: Id, status: AssignmentStatus, to: State, ride: Ride, handoff: Option<Proof>)
    requires CanRelease(c, ix, a, status, to, ride, handoff)
    ensures Linked(Release(c, a, status, to, ride, handoff), ReleaseIndex(c, ix, a, handoff))
  {
    var c', ix' := Release(c, a, status, to, ride, handoff), ReleaseIndex(c, ix, a, handoff);
    WorkingFacts(c, ix, a);
    hide Local, Own, Release, ReleaseIndex;
    ReleaseLocal(c, ix, a, status, to, ride, handoff);
    ReleaseOwn(c, ix, a, status, to, ride, handoff);
    LinkedFrom(c, ix, c', ix', c.assignments[a].job, Some(c.assignments[a].driver));
  }

  // ---- Duty, AddJob

  /** No row is about an aggregate that does not exist, save reservations that have ended. */
  lemma Unborn(c: Core, ix: Index, j: Job)
    requires Linked(c, ix) && j !in c.jobs
    ensures forall o | o in c.offers :: c.offers[o].job != j
    ensures forall a | a in c.assignments :: c.assignments[a].job != j
    ensures forall p | p in c.proofs :: c.proofs[p].job != j
    ensures forall r | r in c.reservations && c.reservations[r].job == j :: !c.reservations[r].status.Active?
    ensures forall e | e in c.work :: Current(c.work[e]) != Some(j)
  {
    forall o | o in c.offers ensures c.offers[o].job != j { assert OfferOk(c, ix, o); }
    forall a | a in c.assignments ensures c.assignments[a].job != j { assert AssignmentOk(c, ix, a); }
    forall p | p in c.proofs ensures c.proofs[p].job != j { assert ProofOk(c, ix, p); }
    forall r | r in c.reservations ensures c.reservations[r].job == j ==> !c.reservations[r].status.Active? {
      assert ReservationOk(c, ix, r);
    }
    forall e | e in c.work ensures Current(c.work[e]) != Some(j) { assert WorkOk(c, ix, e); }
  }

  lemma DutyKeeps(c: Core, ix: Index, d: Id, state: WorkState)
    requires Linked(c, ix) && (state.Offline? || state.Available?)
    requires d in c.work ==> c.work[d].state.Offline? || c.work[d].state.Available?
    ensures Linked(Duty(c, d, state), ix)
  {
    var j, c' := Trip(c.nextId), Duty(c, d, state);
    if d in c.work { assert WorkOk(c, ix, d); }
    Unborn(c, ix, j);
    LocalSelf(c, ix, j);
    LocalDriver(c.work, j, d, c'.work[d]);
    assert WorkOk(c', ix, d);
    hide LocalJobs, LocalWork, LocalOffers, LocalReservations, LocalAssignments, LocalProofs;
    hide OfferOk, AssignmentOk, ProofOk, JobOk;
    LinkedFrom(c, ix, c', ix, j, Some(d));
  }

  lemma NewJobOk(c: Core, ix: Index, j: Job, row: JobRow)
    requires Linked(c, ix) && j.id == c.nextId
    requires row.state.Requested? && row.version == 0 && (j.Delivery? ==> row.ride.Parcel?)
    ensures JobOk(AddJob(c, j, row), ix.(trail := ix.trail[j := []]), j)
  {
    Unborn(c, ix, j);
  }

  /** A new aggregate starts at version 0, requested. */
  lemma AddJobKeeps(c: Core, ix: Index, j: Job, row: JobRow)
    requires Linked(c, ix) && j.id == c.nextId
    requires row.state.Requested? && row.version == 0 && (j.Delivery? ==> row.ride.Parcel?)
    ensures Linked(AddJob(c, j, row), ix.(trail := ix.trail[j := []]))
  {
    hide Linked, JobOk;
    var c', ix' := AddJob(c, j, row), ix.(trail := ix.trail[j := []]);
    LinkedShape(c, ix);
    Unborn(c, ix, j);
    LocalSelf(c, ix, j);
    LocalJob(c.jobs, j, row);
    NewJobOk(c, ix, j, row);
    hide LocalJobs, LocalWork, LocalOffers, LocalReservations, LocalAssignments, LocalProofs;
    hide OfferOk, AssignmentOk, ProofOk, WorkOk;
    LinkedFrom(c, ix, c', ix', j, None);
  }
}
