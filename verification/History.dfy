/**
 * What no transaction undoes, and that every event respects it: versions only grow, a terminal
 * aggregate and a resolved offer, reservation or assignment never change again, logs are only
 * appended to, and receipts and proofs stay as they were written.
 */
module History {
  import opened Basics
  import opened Fare
  import opened Tables
  import opened Events
  import opened Commitments
  import opened Steps

  /** The terms taken over from the quote stay; the bill is free. */
  predicate SameTerms(r: Ride, r': Ride) {
    if r.Ride? then r'.Ride? && r' == r.(metering := r'.metering, finalFare := r'.finalFare) else r' == r
  }

  predicate JobLater(row: JobRow, row': JobRow) {
    && row'.customer == row.customer && row.version <= row'.version && SameTerms(row.ride, row'.ride)
    && (row'.version == row.version ==> row' == row)
    && (Terminal(row.state) ==> row' == row)
  }

  predicate OfferLater(f: Offer, f': Offer) {
    if f.status.Pending? && !f'.status.Pending?
    then f' == f.(status := f'.status, acceptedKey := f'.acceptedKey, acceptedAt := f'.acceptedAt)
    else f' == f
  }

  predicate ReservationLater(r: Reservation, r': Reservation) {
    if r.status.Active? then r' == r.(status := r'.status) else r' == r
  }

  predicate AssignmentLater(a: Assignment, a': Assignment) {
    if a.status.Working? then a' == a.(status := a'.status, custody := a'.custody) else a' == a
  }

  predicate QuoteLater(q: Quote, q': Quote) {
    if q.status.QuoteActive? then q' == q.(status := q'.status) else q' == q
  }

  ghost predicate JobsLater(m: map<Job, JobRow>, m': map<Job, JobRow>) {
    forall j {:trigger m[j]} {:trigger m'[j]} | j in m :: j in m' && JobLater(m[j], m'[j])
  }

  ghost predicate WorkLater(m: map<Id, Work>, m': map<Id, Work>) {
    forall d | d in m :: d in m' && m[d].version <= m'[d].version
  }

  ghost predicate OffersLater(m: map<Id, Offer>, m': map<Id, Offer>) {
    forall o | o in m :: o in m' && OfferLater(m[o], m'[o])
  }

  ghost predicate ReservationsLater(m: map<Id, Reservation>, m': map<Id, Reservation>) {
    forall r | r in m :: r in m' && ReservationLater(m[r], m'[r])
  }

  ghost predicate AssignmentsLater(m: map<Id, Assignment>, m': map<Id, Assignment>) {
    forall a | a in m :: a in m' && AssignmentLater(m[a], m'[a])
  }

  ghost predicate ProofsLater(m: map<Id, Proof>, m': map<Id, Proof>) {
    forall p | p in m :: p in m' && m'[p] == m[p]
  }

  ghost predicate LogLater(m: map<Job, seq<Transition>>, m': map<Job, seq<Transition>>) {
    forall j | j in m :: j in m' && m[j] <= m'[j]
  }

  ghost predicate OutboxLater(m: map<Job, seq<Event>>, m': map<Job, seq<Event>>) {
    forall j | j in m :: j in m' && m[j] <= m'[j]
  }

  ghost predicate CoreLater(c: Core, c': Core) {
    && c.nextId <= c'.nextId
    && JobsLater(c.jobs, c'.jobs) && WorkLater(c.work, c'.work) && OffersLater(c.offers, c'.offers)
    && ReservationsLater(c.reservations, c'.reservations)
    && AssignmentsLater(c.assignments, c'.assignments) && ProofsLater(c.proofs, c'.proofs)
  }

  ghost predicate BooksLater(b: Books, b': Books) {
    && (forall q | q in b.quotes :: q in b'.quotes && QuoteLater(b.quotes[q], b'.quotes[q]))
    && (forall t | t in b.payments :: t in b'.payments && b.payments[t] <= b'.payments[t])
  }

  ghost predicate ReceiptsLater(m: map<ReceiptKey, Receipt>, m': map<ReceiptKey, Receipt>) {
    forall k | k in m :: k in m' && m'[k] == m[k]
  }

  ghost predicate Later(db: Db, db': Db) {
    && CoreLater(db.core, db'.core)
    && LogLater(db.journal.log, db'.journal.log) && OutboxLater(db.journal.outbox, db'.journal.outbox)
    && BooksLater(db.books, db'.books)
    && ReceiptsLater(db.receipts, db'.receipts)
  }

  lemma LaterSelf(db: Db)
    ensures Later(db, db)
  {
  }

  lemma CoreLaterChain(c: Core, c1: Core, c2: Core)
    requires CoreLater(c, c1) && CoreLater(c1, c2)
    ensures CoreLater(c, c2)
  {
  }

  lemma LaterChain(db: Db, db1: Db, db2: Db)
    requires Later(db, db1) && Later(db1, db2)
    ensures Later(db, db2)
  {
    CoreLaterChain(db.core, db1.core, db2.core);
    hide CoreLater;
  }

  /** Nothing but offer `hired` is newly accepted. */
  ghost predicate Hires(m: map<Id, Offer>, m': map<Id, Offer>, hired: Option<Id>) {
    forall o | o in m' && m'[o].status.Accepted? && hired != Some(o) :: o in m && m[o].status.Accepted?
  }

  ghost predicate LocalOutbox(m: map<Job, seq<Event>>, m': map<Job, seq<Event>>, j: Job) {
    forall i | i in m' && i != j :: i in m && m'[i] == m[i]
  }

  /** A transaction's part: about one aggregate, and nothing undone. */
  ghost predicate Evolves(db: Db, db': Db, j: Job, hired: Option<Id>) {
    && Later(db, db') && db'.receipts == db.receipts
    && LocalJobs(db.core.jobs, db'.core.jobs, j) && LocalOffers(db.core.offers, db'.core.offers, j)
    && LocalOutbox(db.journal.outbox, db'.journal.outbox, j)
    && Hires(db.core.offers, db'.core.offers, hired)
  }

  lemma EvolvesSelf(db: Db, j: Job)
    ensures Evolves(db, db, j, None)
  {
    LaterSelf(db);
  }

  lemma EvolvesChain(db: Db, db1: Db, db2: Db, j: Job, hired: Option<Id>)
    requires Evolves(db, db1, j, None) && Evolves(db1, db2, j, hired)
    ensures Evolves(db, db2, j, hired)
  {
    LaterChain(db, db1, db2);
    hide Later;
  }

  lemma AdvanceEvolves(
      db: Db, j: Job, to: State, act: Act, actor: Option<Id>, kind: EventKind, carried: Option<State>,
      drivers: set<Id>)
    requires Known(db, j) && !Terminal(db.core.jobs[j].state)
    ensures Evolves(db, Advance(db, j, to, act, actor, kind, carried, drivers), j, None)
  {
  }

  lemma ProposeEvolves(db: Db, j: Job, d: Id, expiresAt: Time, attempt: nat, kind: EventKind)
    requires Known(db, j) && d in db.core.work
    requires db.core.nextId !in db.core.reservations && db.core.nextId + 1 !in db.core.offers
    ensures Evolves(db, Propose(db, j, d, expiresAt, attempt, kind), j, None)
  {
  }

  lemma DropEvolves(db: Db, o: Id, status: OfferStatus, released: ReservationStatus)
    requires OfferRows(db.core, o) && db.core.offers[o].status.Pending? && !status.Accepted?
    requires db.core.reservations[db.core.offers[o].reservation].status.Active?
    ensures Evolves(db, Drop(db, o, status, released), db.core.offers[o].job, None)
  {
  }

  lemma HireEvolves(db: Db, o: Id, key: Id, now: Time)
    requires OfferRows(db.core, o) && Known(db, db.core.offers[o].job) && db.core.offers[o].status.Pending?
    requires db.core.reservations[db.core.offers[o].reservation].status.Active?
    requires !Terminal(db.core.jobs[db.core.offers[o].job].state) && db.core.nextId !in db.core.assignments
    ensures Evolves(db, Hire(db, o, key, now), db.core.offers[o].job, Some(o))
  {
  }

  lemma DriveEvolves(
      db: Db, a: Id, to: State, work: WorkState, custody: Option<string>, act: Act, kind: EventKind)
    requires AssignmentRows(db.core, a) && Known(db, db.core.assignments[a].job)
    requires db.core.assignments[a].status.Working? && !Terminal(db.core.jobs[db.core.assignments[a].job].state)
    ensures Evolves(db, Drive(db, a, to, work, custody, act, kind), db.core.assignments[a].job, None)
  {
  }

  lemma FinishEvolves(
      db: Db, a: Id, status: AssignmentStatus, to: State, ride: Ride, handoff: Option<Proof>, act: Act,
      actor: Id, kind: EventKind)
    requires AssignmentRows(db.core, a) && Known(db, db.core.assignments[a].job)
    requires db.core.assignments[a].status.Working? && !Terminal(db.core.jobs[db.core.assignments[a].job].state)
    requires SameTerms(db.core.jobs[db.core.assignments[a].job].ride, ride)
    requires db.core.nextId !in db.core.proofs
    ensures Evolves(db, Finish(db, a, status, to, ride, handoff, act, actor, kind), db.core.assignments[a].job, None)
  {
  }

  lemma EnterEvolves(db: Db, j: Job, row: JobRow)
    requires j !in db.core.jobs && j !in db.journal.log && j !in db.journal.outbox
    ensures Evolves(db, Enter(db, j, row), j, None)
  {
  }
}
