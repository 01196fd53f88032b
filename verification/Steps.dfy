/**
 * The events on the whole database: matching tables and journal together. Each keeps the
 * invariant of matching, journal and settlement.
 */
module Steps {
  import opened Basics
  import opened Fare
  import opened Tables
  import opened Events
  import opened Commitments
  import opened CommitmentSteps
  import opened Journals
  import opened Settlement

  ghost predicate Sound(db: Db, ix: Index) {
    && Linked(db.core, ix)
    && Logged(db.core, ix, db.journal)
    && Settled(db.core, db.books, ix)
  }

  /** The rows about one aggregate are present. */
  predicate Known(db: Db, j: Job) {
    j in db.core.jobs && j in db.journal.log && j in db.journal.outbox
  }

  lemma AllKnown(db: Db, ix: Index)
    requires Sound(db, ix)
    ensures forall j | j in db.core.jobs :: Known(db, j)
  {
  }

  /** From c to c' an assignment's Driver never changes. */
  ghost predicate SameDrivers(c: Core, c': Core) {
    forall a | a in c.assignments :: a in c'.assignments && c'.assignments[a].driver == c.assignments[a].driver
  }

  /** A step with its transition row and event keeps the journal, whatever else it does. */
  lemma Noted(
      db: Db, ix: Index, db': Db, ix': Index, j: Job, to: State, act: Act, actor: Option<Id>,
      kind: EventKind, carried: Option<State>, drivers: set<Id>)
    requires Linked(db.core, ix) && Logged(db.core, ix, db.journal) && Known(db, j)
    requires LocalJobs(db.core.jobs, db'.core.jobs, j) && j in db'.core.jobs
    requires db'.core.jobs[j].state == to && db'.core.jobs[j].version == db.core.jobs[j].version + 1
    requires db'.journal == Note(db.journal, j, act, actor, db.core.jobs[j].state, to, db.core.jobs[j].version,
                                 kind, carried, drivers)
    requires !Terminal(db.core.jobs[j].state) && Legal(j, act, db.core.jobs[j].state, to)
    requires SameDrivers(db.core, db'.core) && Others(ix.staff, ix'.staff, j)
    requires DriverAct(act) ==> Worker(db'.core, ix', j).Some? && actor == Worker(db'.core, ix', j)
    requires j in ix.staff ==> j in ix'.staff && ix'.staff[j] == ix.staff[j]
    requires carried.Some? ==> carried.value == to
    requires TerminalKind(kind) <==> Terminal(to)
    ensures Logged(db'.core, ix', db'.journal)
  {
    var row := db.core.jobs[j];
    assert JournalOk(db.core, ix, db.journal, j);
    forall i | i in db.core.jobs && i != j ensures Worker(db'.core, ix', i) == Worker(db.core, ix, i) {
      OthersAt(ix.staff, ix'.staff, j, i);
      assert JobOk(db.core, ix, i);
    }
    StepKeeps(j, row.state, row.version, Worker(db.core, ix, j), db.journal.log[j], db.journal.outbox[j],
              act, actor, to, Worker(db'.core, ix', j), kind, carried, drivers);
    hide Linked, JobOk, Journaled, LocalJobs, SameDrivers, Worker, Legal;
    LoggedFrom(db.core, ix, db.journal, db'.core, ix', db'.journal, j);
  }

  /** An aggregate that nobody works on takes a step. */
  function Advance(
      db: Db, j: Job, to: State, act: Act, actor: Option<Id>, kind: EventKind, carried: Option<State>,
      drivers: set<Id>): Db
    requires Known(db, j)
  {
    var row := db.core.jobs[j];
    db.(core := Move(db.core, j, to),
        journal := Note(db.journal, j, act, actor, row.state, to, row.version, kind, carried, drivers))
  }

  lemma AdvanceKeeps(
      db: Db, ix: Index, j: Job, to: State, act: Act, actor: Option<Id>, kind: EventKind,
      carried: Option<State>, drivers: set<Id>)
    requires Sound(db, ix) && CanMove(db.core, ix, j, to) && Known(db, j)
    requires Legal(j, act, db.core.jobs[j].state, to) && !DriverAct(act)
    requires carried.Some? ==> carried.value == to
    requires TerminalKind(kind) <==> Terminal(to)
    ensures Sound(Advance(db, j, to, act, actor, kind, carried, drivers), ix)
  {
    var db' := Advance(db, j, to, act, actor, kind, carried, drivers);
    var row := db.core.jobs[j];
    LocalJob(db.core.jobs, j, Moved(row, to));
    hide LocalJobs, Legal, TerminalKind;
    MoveKeeps(db.core, ix, j, to);
    RideMoved(db.core, db'.core, db.books, ix, ix, j, to);
    SettledStep(db.core, db'.core, db.books, ix, ix, j);
    Noted(db, ix, db', ix, j, to, act, actor, kind, carried, drivers);
  }

  /** A Driver is offered the job; a Trip's outbox tells of it, a Delivery's does not. */
  function Propose(db: Db, j: Job, d: Id, expiresAt: Time, attempt: nat, kind: EventKind): Db
    requires Known(db, j) && d in db.core.work
  {
    var db1 := db.(core := OpenOffer(db.core, j, d, expiresAt, attempt));
    if j.Trip?
    then db1.(journal := Tell(db.journal, j, Event(kind, db.core.jobs[j].version, None, {d})))
    else db1
  }

  /** The outbox has no event of this type at this version yet. */
  predicate Untold(outbox: seq<Event>, version: nat, kind: EventKind) {
    forall i | 0 <= i < |outbox| && outbox[i].version == version :: outbox[i].kind != kind
  }

  lemma LocalJobsSame(m: map<Job, JobRow>, j: Job)
    ensures LocalJobs(m, m, j)
  {
  }

  lemma ProposeJournal(db: Db, ix: Index, j: Job, d: Id, expiresAt: Time, attempt: nat, kind: EventKind)
    requires Logged(db.core, ix, db.journal) && Known(db, j) && j in ix.trail
    requires db.core.jobs[j].state.Matching? && d in db.core.work && !TerminalKind(kind)
    requires j.Trip? ==> Untold(db.journal.outbox[j], db.core.jobs[j].version, kind)
    ensures Logged(Propose(db, j, d, expiresAt, attempt, kind).core, OpenIndex(db.core, ix, j),
                   Propose(db, j, d, expiresAt, attempt, kind).journal)
  {
    var db', ix' := Propose(db, j, d, expiresAt, attempt, kind), OpenIndex(db.core, ix, j);
    var row := db.core.jobs[j];
    assert JournalOk(db.core, ix, db.journal, j);
    if j.Trip? {
      TellKeeps(j, row.state, row.version, Worker(db.core, ix, j), db.journal.log[j], db.journal.outbox[j],
                Event(kind, row.version, None, {d}));
    }
    LocalJobsSame(db.core.jobs, j);
    assert db'.journal.log == db.journal.log[j := db'.journal.log[j]];
    assert db'.journal.outbox == db.journal.outbox[j := db'.journal.outbox[j]];
    hide Journaled, LocalJobs, Untold;
    LoggedFrom(db.core, ix, db.journal, db'.core, ix', db'.journal, j);
  }

  lemma ProposeKeeps(db: Db, ix: Index, j: Job, d: Id, expiresAt: Time, attempt: nat, kind: EventKind)
    requires Sound(db, ix) && CanOpen(db.core, ix, j, d, attempt) && Known(db, j)
    requires !TerminalKind(kind)
    requires j.Trip? ==> Untold(db.journal.outbox[j], db.core.jobs[j].version, kind)
    ensures Sound(Propose(db, j, d, expiresAt, attempt, kind), OpenIndex(db.core, ix, j))
  {
    var db', ix' := Propose(db, j, d, expiresAt, attempt, kind), OpenIndex(db.core, ix, j);
    assert RideOk(db.core, db.books, ix, j);
    LocalJobsSame(db.core.jobs, j);
    hide LocalJobs, Untold, HasPending;
    OpenOfferKeeps(db.core, ix, j, d, expiresAt, attempt);
    SettledStep(db.core, db'.core, db.books, ix, ix', j);
    ProposeJournal(db, ix, j, d, expiresAt, attempt, kind);
  }

  /** A pending offer ends without acceptance; the aggregate and the journal are as before. */
  function Drop(db: Db, o: Id, status: OfferStatus, released: ReservationStatus): Db
    requires OfferRows(db.core, o)
  {
    db.(core := ShutOffer(db.core, o, status, released))
  }

  lemma DropKeeps(db: Db, ix: Index, o: Id, status: OfferStatus, released: ReservationStatus)
    requires Sound(db, ix) && CanShut(db.core, ix, o, status, released)
    ensures Sound(Drop(db, o, status, released), ix)
    ensures var j, c' := db.core.offers[o].job, Drop(db, o, status, released).core;
            && j in c'.jobs && c'.jobs[j].state.Matching? && !HasPending(c', ix, j)
            && j in ix.trail && (j.Trip? ==> c'.jobs[j].version <= |ix.trail[j]|)
  {
    var db', j := Drop(db, o, status, released), db.core.offers[o].job;
    PendingFacts(db.core, ix, o);
    assert RideOk(db.core, db.books, ix, j);
    LocalJobsSame(db.core.jobs, j);
    assert JournalOk(db.core, ix, db.journal, j);
    assert db'.journal.log == db.journal.log[j := db'.journal.log[j]];
    assert db'.journal.outbox == db.journal.outbox[j := db'.journal.outbox[j]];
    hide Journaled, LocalJobs, HasPending;
    ShutOfferKeeps(db.core, ix, o, status, released);
    SettledStep(db.core, db'.core, db.books, ix, ix, j);
    LoggedFrom(db.core, ix, db.journal, db'.core, ix, db'.journal, j);
  }

  /** The pending offer's Driver accepts and is assigned. */
  function Hire(db: Db, o: Id, key: Id, now: Time): Db
    requires OfferRows(db.core, o) && Known(db, db.core.offers[o].job)
  {
    var f := db.core.offers[o];
    var row := db.core.jobs[f.job];
    db.(core := Engage(db.core, o, key, now),
        journal := Note(db.journal, f.job, AssignDriver, Some(f.driver), row.state, DriverToPickup,
                        row.version, DriverAssigned, Some(DriverToPickup), {f.driver}))
  }

  lemma Unhired(c: Core, ix: Index, j: Job)
    requires Linked(c, ix) && j in c.jobs && c.jobs[j].state.Matching?
    ensures j !in ix.staff && c.nextId !in c.assignments
  {
    assert JobOk(c, ix, j);
  }

  lemma HireJournal(db: Db, ix: Index, o: Id, key: Id, now: Time)
    requires Sound(db, ix) && OfferRows(db.core, o) && Known(db, db.core.offers[o].job)
    requires db.core.jobs[db.core.offers[o].job].state.Matching?
    ensures Logged(Hire(db, o, key, now).core, EngageIndex(db.core, ix, o), Hire(db, o, key, now).journal)
  {
    hide Linked, Logged, Settled, LocalJobs;
    var db', ix', f := Hire(db, o, key, now), EngageIndex(db.core, ix, o), db.core.offers[o];
    Unhired(db.core, ix, f.job);
    assert SameDrivers(db.core, db'.core);
    LocalJob(db.core.jobs, f.job, db'.core.jobs[f.job]);
    Noted(db, ix, db', ix', f.job, DriverToPickup, AssignDriver, Some(f.driver), DriverAssigned,
          Some(DriverToPickup), {f.driver});
  }

  lemma HireKeeps(db: Db, ix: Index, o: Id, key: Id, now: Time)
    requires Sound(db, ix) && CanEngage(db.core, ix, o, now) && Known(db, db.core.offers[o].job)
    ensures Sound(Hire(db, o, key, now), EngageIndex(db.core, ix, o))
  {
    hide Linked, LocalJobs, HasPending, Logged, Settled;
    var db', ix', f := Hire(db, o, key, now), EngageIndex(db.core, ix, o), db.core.offers[o];
    PendingFacts(db.core, ix, o);
    HireJournal(db, ix, o, key, now);
    LocalJob(db.core.jobs, f.job, db'.core.jobs[f.job]);
    EngageKeeps(db.core, ix, o, key, now);
    RideMoved(db.core, db'.core, db.books, ix, ix', f.job, DriverToPickup);
    SettledStep(db.core, db'.core, db.books, ix, ix', f.job);
  }

  /** The assigned Driver arrives or starts. */
  function Drive(
      db: Db, a: Id, to: State, work: WorkState, custody: Option<string>, act: Act, kind: EventKind): Db
    requires AssignmentRows(db.core, a) && Known(db, db.core.assignments[a].job)
  {
    var g := db.core.assignments[a];
    var row := db.core.jobs[g.job];
    db.(core := Progress(db.core, a, to, work, custody),
        journal := Note(db.journal, g.job, act, Some(g.driver), row.state, to, row.version, kind, Some(to),
                        {g.driver}))
  }

  lemma DriveJournal(
      db: Db, ix: Index, a: Id, to: State, work: WorkState, custody: Option<string>, act: Act, kind: EventKind)
    requires Sound(db, ix) && AssignmentRows(db.core, a) && Known(db, db.core.assignments[a].job)
    requires var j := db.core.assignments[a].job;
             j in ix.staff && ix.staff[j] == a && Staffed(db.core.jobs[j].state)
             && Legal(j, act, db.core.jobs[j].state, to)
    requires !TerminalKind(kind) && !Terminal(to)
    ensures Logged(Drive(db, a, to, work, custody, act, kind).core, ix, Drive(db, a, to, work, custody, act, kind).journal)
  {
    hide Linked, Logged, Settled, LocalJobs, Legal, TerminalKind;
    var db', g := Drive(db, a, to, work, custody, act, kind), db.core.assignments[a];
    assert SameDrivers(db.core, db'.core);
    LocalJob(db.core.jobs, g.job, db'.core.jobs[g.job]);
    Noted(db, ix, db', ix, g.job, to, act, Some(g.driver), kind, Some(to), {g.driver});
  }

  lemma DriveKeeps(
      db: Db, ix: Index, a: Id, to: State, work: WorkState, custody: Option<string>, act: Act, kind: EventKind)
    requires Sound(db, ix) && CanProgress(db.core, ix, a, to, work, custody)
    requires Known(db, db.core.assignments[a].job)
    requires Legal(db.core.assignments[a].job, act, db.core.jobs[db.core.assignments[a].job].state, to)
    requires !TerminalKind(kind)
    ensures Sound(Drive(db, a, to, work, custody, act, kind), ix)
  {
    hide Linked, LocalJobs, HasPending, Legal, TerminalKind, Logged, Settled;
    var db', g := Drive(db, a, to, work, custody, act, kind), db.core.assignments[a];
    WorkingFacts(db.core, ix, a);
    DriveJournal(db, ix, a, to, work, custody, act, kind);
    LocalJob(db.core.jobs, g.job, db'.core.jobs[g.job]);
    ProgressKeeps(db.core, ix, a, to, work, custody);
    RideMoved(db.core, db'.core, db.books, ix, ix, g.job, to);
    SettledStep(db.core, db'.core, db.books, ix, ix, g.job);
  }

  /** The assignment ends: completed by its Driver, or dropped when the Customer cancels. */
  function Finish(
      db: Db, a: Id, status: AssignmentStatus, to: State, ride: Ride, handoff: Option<Proof>, act: Act,
      actor: Id, kind: EventKind): Db
    requires AssignmentRows(db.core, a) && Known(db, db.core.assignments[a].job)
  {
    var g := db.core.assignments[a];
    var row := db.core.jobs[g.job];
    db.(core := Release(db.core, a, status, to, ride, handoff),
        journal := Note(db.journal, g.job, act, Some(actor), row.state, to, row.version, kind, Some(to),
                        {g.driver}))
  }

  /** The price columns after the end: a completed Trip is billed, anything else keeps its own. */
  predicate BilledAs(row: JobRow, to: State, ride: Ride) {
    if to.Completed? && row.ride.Ride? then
      && ride.Ride? && ride.metering.Some?
      && ride == row.ride.(metering := ride.metering, finalFare := ride.finalFare)
      && BillOk(row.(state := Completed, ride := ride))
    else ride == row.ride
  }

  lemma FinishRide(c: Core, b: Books, ix: Index, ix': Index, j: Job, c': Core, to: State, ride: Ride)
    requires Settled(c, b, ix) && j in c.jobs && j in c'.jobs && c'.jobs[j] == Moved(c.jobs[j], to).(ride := ride)
    requires ix'.consumer == ix.consumer && ix'.riding == ix.riding
    requires !Terminal(c.jobs[j].state) && Terminal(to) && BilledAs(c.jobs[j], to, ride)
    ensures RideOk(c', b, ix', j)
  {
    assert RideOk(c, b, ix, j);
  }

  lemma FinishJournal(
      db: Db, ix: Index, a: Id, status: AssignmentStatus, to: State, ride: Ride, handoff: Option<Proof>,
      act: Act, actor: Id, kind: EventKind)
    requires Sound(db, ix) && AssignmentRows(db.core, a) && Known(db, db.core.assignments[a].job)
    requires var j := db.core.assignments[a].job;
             j in ix.staff && ix.staff[j] == a && Staffed(db.core.jobs[j].state)
             && Legal(j, act, db.core.jobs[j].state, to)
    requires DriverAct(act) ==> actor == db.core.assignments[a].driver
    requires TerminalKind(kind) && Terminal(to)
    ensures var db' := Finish(db, a, status, to, ride, handoff, act, actor, kind);
            Logged(db'.core, ReleaseIndex(db.core, ix, a, handoff), db'.journal)
  {
    hide Linked, Logged, Settled, LocalJobs, Legal, TerminalKind, DriverAct;
    var db', ix' := Finish(db, a, status, to, ride, handoff, act, actor, kind), ReleaseIndex(db.core, ix, a, handoff);
    var g := db.core.assignments[a];
    assert SameDrivers(db.core, db'.core);
    LocalJob(db.core.jobs, g.job, db'.core.jobs[g.job]);
    Noted(db, ix, db', ix', g.job, to, act, Some(actor), kind, Some(to), {g.driver});
  }

  lemma FinishKeeps(
      db: Db, ix: Index, a: Id, status: AssignmentStatus, to: State, ride: Ride, handoff: Option<Proof>,
      act: Act, actor: Id, kind: EventKind)
    requires Sound(db, ix) && CanRelease(db.core, ix, a, status, to, ride, handoff)
    requires Known(db, db.core.assignments[a].job)
    requires Legal(db.core.assignments[a].job, act, db.core.jobs[db.core.assignments[a].job].state, to)
    requires DriverAct(act) ==> actor == db.core.assignments[a].driver
    requires TerminalKind(kind) && BilledAs(db.core.jobs[db.core.assignments[a].job], to, ride)
    ensures Sound(Finish(db, a, status, to, ride, handoff, act, actor, kind), ReleaseIndex(db.core, ix, a, handoff))
  {
    hide Linked, LocalJobs, HasPending, Legal, TerminalKind, BilledAs, Logged, Settled, DriverAct;
    var db', ix' := Finish(db, a, status, to, ride, handoff, act, actor, kind), ReleaseIndex(db.core, ix, a, handoff);
    var g := db.core.assignments[a];
    WorkingFacts(db.core, ix, a);
    FinishJournal(db, ix, a, status, to, ride, handoff, act, actor, kind);
    FinishRide(db.core, db.books, ix, ix', g.job, db'.core, to, ride);
    LocalJob(db.core.jobs, g.job, db'.core.jobs[g.job]);
    ReleaseKeeps(db.core, ix, a, status, to, ride, handoff);
    SettledStep(db.core, db'.core, db.books, ix, ix', g.job);
  }

  /** A Driver goes on or off duty. */
  lemma DutySound(db: Db, ix: Index, d: Id, state: WorkState)
    requires Sound(db, ix) && (state.Offline? || state.Available?)
    requires d in db.core.work ==> db.core.work[d].state.Offline? || db.core.work[d].state.Available?
    ensures Sound(db.(core := Duty(db.core, d, state)), ix)
  {
    var c' := Duty(db.core, d, state);
    hide Journaled, TripOk, SoleOk, AttemptsOk;
    DutyKeeps(db.core, ix, d, state);
    forall j | j in c'.jobs ensures JournalOk(c', ix, db.journal, j) { assert JournalOk(db.core, ix, db.journal, j); }
    forall j | j in c'.jobs ensures RideOk(c', db.books, ix, j) { assert RideOk(db.core, db.books, ix, j); }
    forall t | t in db.books.payments ensures PaymentOk(c', db.books, t) { assert PaymentOk(db.core, db.books, t); }
  }

  /** A new Trip or Delivery, with its first transition and event. */
  function Enter(db: Db, j: Job, row: JobRow): Db {
    db.(core := AddJob(db.core, j, row), journal := Begin(db.journal, j, row.customer))
  }

  lemma EnterJournal(db: Db, ix: Index, ix': Index, j: Job, row: JobRow)
    requires Sound(db, ix) && j.id == db.core.nextId && row.state.Requested? && row.version == 0
    requires ix'.staff == ix.staff
    ensures Logged(Enter(db, j, row).core, ix', Enter(db, j, row).journal)
  {
    var db' := Enter(db, j, row);
    OpenKeeps(j, row.customer);
    LocalJob(db.core.jobs, j, row);
    hide Settled, Journaled, LocalJobs;
    LoggedFrom(db.core, ix, db.journal, db'.core, ix', db'.journal, j);
  }

  lemma EnterDeliveryKeeps(db: Db, ix: Index, row: JobRow)
    requires Sound(db, ix) && row.state.Requested? && row.version == 0 && row.ride.Parcel?
    ensures var j := Delivery(db.core.nextId);
            Sound(Enter(db, j, row), ix.(trail := ix.trail[j := []]))
  {
    var j := Delivery(db.core.nextId);
    var db', ix' := Enter(db, j, row), ix.(trail := ix.trail[j := []]);
    AddJobKeeps(db.core, ix, j, row);
    EnterJournal(db, ix, ix', j, row);
    forall i | i in db'.core.jobs ensures RideOk(db'.core, db.books, ix', i) {
      if i != j { assert RideOk(db.core, db.books, ix, i); }
    }
    forall t | t in db.books.payments ensures PaymentOk(db'.core, db.books, t) { assert PaymentOk(db.core, db.books, t); }
  }
}
