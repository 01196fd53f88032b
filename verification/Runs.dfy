/**
 * The invariant of the reachable databases, and runs: any sequence of commands, by anyone, at
 * any times, from the empty database.
 */
module Runs {
  import opened Basics
  import opened Fare
  import opened Tables
  import opened Events
  import opened Commitments
  import opened CommitmentSteps
  import opened Journals
  import opened Settlement
  import opened Steps
  import opened History
  import opened Queries
  import opened Commands
  import opened CommandProofs
  import opened CommandSafety
  import opened MatchingSafety
  import opened Retries

  predicate AcceptedTrip(offers: map<Id, Offer>, o: Id) {
    o in offers && offers[o].job.Trip? && offers[o].status.Accepted? && offers[o].acceptedKey.Some?
  }

  /** An accepted Trip offer has the receipt of its acceptance, and is the only one accepted under its key. */
  ghost predicate Receipted(offers: map<Id, Offer>, receipts: map<ReceiptKey, Receipt>) {
    && (forall o | AcceptedTrip(offers, o) ::
          ReceiptKey(offers[o].driver, AcceptTripOp, offers[o].acceptedKey.value) in receipts)
    && (forall o, p | AcceptedTrip(offers, o) && AcceptedTrip(offers, p) ::
          offers[o].driver == offers[p].driver && offers[o].acceptedKey == offers[p].acceptedKey ==> o == p)
  }

  ghost predicate Awaiting(c: Core, j: Job) {
    exists o :: o in c.offers && c.offers[o].job == j && c.offers[o].status.Pending?
  }

  /** A Delivery that is matching has a pending offer; a Trip need not. */
  ghost predicate Waiting(c: Core) {
    forall j | j in c.jobs && j.Delivery? && c.jobs[j].state.Matching? :: Awaiting(c, j)
  }

  ghost predicate Holds(db: Db, ix: Index) {
    Sound(db, ix) && Receipted(db.core.offers, db.receipts) && Waiting(db.core) && Asked(db)
  }

  ghost predicate Inv(db: Db) {
    exists ix :: Holds(db, ix)
  }

  lemma EmptyHolds()
    ensures Inv(EmptyDb())
  {
    assert Holds(EmptyDb(), Index(map[], map[], map[], map[], map[]));
  }

  lemma InvJoined(db: Db)
    requires Inv(db)
    ensures Joined(db)
  {
    var ix :| Holds(db, ix);
    SoundJoined(db, ix);
  }

  /** A witness of the invariant, with its parts. */
  lemma Witness(db: Db) returns (ix: Index)
    requires Inv(db)
    ensures Holds(db, ix) && Sound(db, ix) && Joined(db) && Waiting(db.core) && Asked(db)
  {
    ix :| Holds(db, ix);
    InvJoined(db);
  }

  /** The aggregate a command is about. */
  function Subject(db: Db, cmd: Command): Job {
    match cmd
    case SetWork(_, _, _) => Trip(0)
    case IssueQuote(_, _, _, _) => Trip(0)
    case CreateTrip(_, _, _, _, _) => Trip(db.core.nextId)
    case StartTrip(_, id, _, _, _, _) => Trip(id)
    case AcceptTrip(_, o, _, _, _) => JobOf(db.core, o)
    case RejectTrip(_, o, _, _, _, _) => JobOf(db.core, o)
    case SweepTrip(o, _, _, _) => JobOf(db.core, o)
    case DriveTrip(_, id, _, _, _, _, _) => Trip(id)
    case CancelTrip(_, id, _, _) => Trip(id)
    case CreateDelivery(_, _, _) => Delivery(db.core.nextId)
    case StartDelivery(_, id, _, _, _, _) => Delivery(id)
    case AcceptDelivery(_, o, _, _) => JobOf(db.core, o)
    case DriveDelivery(_, id, _, _, _, _) => Delivery(id)
    case SweepDelivery(o, _, _) => JobOf(db.core, o)
    case Capture(_, id, _, _, _) => Trip(id)
  }

  /** The offer that a command accepts. */
  ghost function Hired(db: Db, cmd: Command): Option<Id>
    requires Joined(db)
  {
    match cmd
    case AcceptTrip(_, o, _, _, _) => if Execute(db, cmd).1.Ok? then Some(o) else None
    case AcceptDelivery(_, o, _, _) => if o in db.core.offers && db.core.offers[o].job.Delivery? then Some(o) else None
    case _ => None
  }

  lemma MayHire(db: Db, db': Db, j: Job, hired: Option<Id>)
    requires Evolves(db, db', j, None)
    ensures Evolves(db, db', j, hired)
  {
    hide Later;
  }

  lemma ExecuteKeeps(db: Db, ix: Index, cmd: Command) returns (ix': Index)
    requires Sound(db, ix) && Joined(db)
    ensures Sound(Execute(db, cmd).0, ix')
    ensures Evolves(db, Execute(db, cmd).0, Subject(db, cmd), Hired(db, cmd))
  {
    hide Sound, Evolves, Joined;
    hide DoSetWork, DoIssueQuote, DoCreateTrip, DoStartTrip, DoAcceptTrip, DoRejectTrip, DoSweepTrip, DoDriveTrip,
         DoCancelTrip, DoCreateDelivery, DoStartDelivery, DoAcceptDelivery, DoDriveDelivery, DoSweepDelivery, DoCapture;
    ix' := ix;
    match cmd
    case SetWork(d, available, eligible) => SetWorkKeeps(db, ix, d, available, eligible, Trip(0));
    case IssueQuote(customer, estimate, rules, expiresAt) =>
      IssueQuoteKeeps(db, ix, customer, estimate, rules, expiresAt, Trip(0));
    case CreateTrip(customer, quote, _, _, now) => ix' := CreateTripKeeps(db, ix, customer, quote, now);
    case StartTrip(customer, id, _, _, now, found) => ix' := StartTripKeeps(db, ix, customer, id, now, found);
    case AcceptTrip(d, o, key, _, now) => ix' := AcceptTripKeeps(db, ix, d, o, key, now);
    case RejectTrip(d, o, _, _, now, found) => ix' := RejectTripKeeps(db, ix, d, o, now, found);
    case SweepTrip(o, locked, now, found) => ix' := SweepTripKeeps(db, ix, o, locked, now, found);
    case DriveTrip(d, id, action, _, _, distance, duration) =>
      DriveTripKeeps(db, ix, d, id, action, distance, duration);
    case CancelTrip(customer, id, _, _) => CancelTripKeeps(db, ix, customer, id);
    case CreateDelivery(customer, _, _) => ix' := CreateDeliveryKeeps(db, ix, customer);
    case StartDelivery(customer, id, _, _, now, found) =>
      ix' := StartDeliveryKeeps(db, ix, customer, id, now, found);
    case AcceptDelivery(d, o, key, now) =>
      ix' := AcceptDeliveryKeeps(db, ix, d, o, key, now);
      if Evolves(db, Execute(db, cmd).0, Subject(db, cmd), None) {
        MayHire(db, Execute(db, cmd).0, Subject(db, cmd), Hired(db, cmd));
      }
    case DriveDelivery(d, id, action, _, _, confirmation) =>
      ix' := DriveDeliveryKeeps(db, ix, d, id, action, confirmation);
    case SweepDelivery(o, locked, now) => SweepDeliveryKeeps(db, ix, o, locked, now);
    case Capture(customer, id, _, _, status) => CaptureKeeps(db, ix, customer, id, status, Trip(id));
  }

  // ---- Receipted

  lemma AcceptRecords(db: Db, cmd: Command)
    requires Joined(db) && cmd.AcceptTrip? && Execute(db, cmd).1.Ok?
    ensures var f := Execute(db, cmd).0.core.offers; var o := cmd.offer;
            o in f && f[o].acceptedKey == Some(cmd.key) && f[o].driver == cmd.driver
  {
  }

  lemma ReceiptedKept(db: Db, cmd: Command, db': Db)
    requires Joined(db) && Receipted(db.core.offers, db.receipts)
    requires Evolves(db, Execute(db, cmd).0, Subject(db, cmd), Hired(db, cmd))
    requires KeyOf(cmd).Some? ==> KeyOf(cmd).value !in db.receipts
    requires db' == Recorded(Execute(db, cmd), KeyOf(cmd), FingerprintOf(cmd)).0
    ensures Receipted(db'.core.offers, db'.receipts)
  {
    hide Execute, Joined, FingerprintOf;
    if cmd.AcceptTrip? && Execute(db, cmd).1.Ok? { AcceptRecords(db, cmd); }
    forall o | AcceptedTrip(db'.core.offers, o) && Hired(db, cmd) != Some(o)
      ensures AcceptedTrip(db.core.offers, o) && db'.core.offers[o] == db.core.offers[o]
    {
      assert OfferLater(db.core.offers[o], db'.core.offers[o]);
    }
    ReceiptedFrom(db.core.offers, db.receipts, db'.core.offers, db'.receipts, Hired(db, cmd));
  }

  /** At most one offer is newly accepted, under a key that had no receipt and now has one. */
  lemma ReceiptedFrom(
      m: map<Id, Offer>, receipts: map<ReceiptKey, Receipt>, m': map<Id, Offer>,
      receipts': map<ReceiptKey, Receipt>, hired: Option<Id>)
    requires Receipted(m, receipts) && forall k | k in receipts :: k in receipts'
    requires forall o | AcceptedTrip(m', o) && hired != Some(o) :: AcceptedTrip(m, o) && m'[o] == m[o]
    requires hired.Some? && AcceptedTrip(m', hired.value) ==>
               var k := ReceiptKey(m'[hired.value].driver, AcceptTripOp, m'[hired.value].acceptedKey.value);
               (k !in receipts && k in receipts') || (AcceptedTrip(m, hired.value) && m'[hired.value] == m[hired.value])
    ensures Receipted(m', receipts')
  {
  }

  // ---- Waiting

  lemma StartDeliveryWaits(db: Db, cmd: Command)
    requires Joined(db) && cmd.StartDelivery? && Execute(db, cmd).1.Ok?
    ensures var c', j := Execute(db, cmd).0.core, Delivery(cmd.id);
            j in c'.jobs && c'.jobs[j].state.Matching? ==> Awaiting(c', j)
  {
    var j := Delivery(cmd.id);
    var db1 := BeginMatching(db, j, Some(cmd.customer));
    var rows := Candidates(db1.core, j, None, cmd.found);
    if FirstClaim(rows).Some? {
      FirstClaimIn(rows);
      CandidatesClaimable(db1.core, j, None, cmd.found);
      hide FirstClaim, Candidates, Claimable;
      assert Execute(db, cmd).0.core.offers[db1.core.nextId + 1].job == j;
    }
  }

  lemma SubjectWaits(db: Db, ix: Index, cmd: Command)
    requires Sound(db, ix) && Joined(db) && Waiting(db.core)
    ensures var c', j := Execute(db, cmd).0.core, Subject(db, cmd);
            j.Delivery? && j in c'.jobs && c'.jobs[j].state.Matching? ==> Awaiting(c', j)
  {
    hide Sound, DoSetWork, DoIssueQuote, DoCreateTrip, DoStartTrip, DoAcceptTrip, DoRejectTrip, DoSweepTrip, DoDriveTrip,
         DoCancelTrip, DoCapture, DoCreateDelivery, DoAcceptDelivery, DoSweepDelivery, DoDriveDelivery, Candidates, FirstClaim;
    if cmd.AcceptTrip? || cmd.RejectTrip? || cmd.SweepTrip? {
      TripOfferSame(db, cmd);
    } else if cmd.CreateDelivery? || cmd.AcceptDelivery? || cmd.SweepDelivery? || cmd.DriveDelivery? {
      DeliveryOver(db, cmd);
    } else if cmd.StartDelivery? && Execute(db, cmd).1.Ok? {
      StartDeliveryWaits(db, cmd);
    }
  }

  lemma TripOfferSame(db: Db, cmd: Command)
    requires Joined(db) && (cmd.AcceptTrip? || cmd.RejectTrip? || cmd.SweepTrip?)
    ensures JobOf(db.core, cmd.offer).Delivery? ==> Execute(db, cmd).0 == db
  {
    hide Joined, Hire, Expire, Search, Refuse, Lapse;
  }

  /** These leave the Delivery in another state than MATCHING, or the database as it was. */
  lemma DeliveryOver(db: Db, cmd: Command)
    requires Joined(db) && (cmd.CreateDelivery? || cmd.AcceptDelivery? || cmd.SweepDelivery? || cmd.DriveDelivery?)
    ensures var db', j := Execute(db, cmd).0, Subject(db, cmd);
            db' == db || (j.Delivery? && j in db'.core.jobs && !db'.core.jobs[j].state.Matching?)
  {
    hide AssignmentOf;
    if cmd.DriveDelivery? && AssignmentOf(db.core, Delivery(cmd.id), cmd.driver).Some? {
      AssignmentFound(db, Delivery(cmd.id), cmd.driver);
    }
  }

  lemma WaitingKept(db: Db, db': Db, j: Job, hired: Option<Id>)
    requires Waiting(db.core) && Evolves(db, db', j, hired)
    requires j.Delivery? && j in db'.core.jobs && db'.core.jobs[j].state.Matching? ==> Awaiting(db'.core, j)
    ensures Waiting(db'.core)
  {
    hide Later, Hires;
    forall i | i in db'.core.jobs && i.Delivery? && db'.core.jobs[i].state.Matching? && i != j ensures Awaiting(db'.core, i) {
      var o :| o in db.core.offers && db.core.offers[o].job == i && db.core.offers[o].status.Pending?;
      assert o in db'.core.offers;
    }
  }

  // ---- Asked

  lemma SubjectAsked(db: Db, ix: Index, cmd: Command)
    requires Sound(db, ix) && Joined(db) && Asked(db)
    ensures var db', j := Execute(db, cmd).0, Subject(db, cmd);
            j in db'.core.jobs ==> AskedOf(db'.core, db'.journal, j)
  {
    hide Sound, Joined, MaxAttempt, AskedAt, DoAcceptTrip, DoRejectTrip, DoSweepTrip, DoStartTrip, DoSetWork,
         DoIssueQuote, DoCreateTrip, DoDriveTrip, DoCancelTrip, DoCreateDelivery, DoStartDelivery, DoAcceptDelivery,
         DoDriveDelivery, DoSweepDelivery, DoCapture;
    match cmd
    case StartTrip(customer, id, _, _, now, found) => StartTripAsked(db, ix, customer, id, now, found);
    case AcceptTrip(d, o, key, _, now) => AcceptTripAsked(db, ix, d, o, key, now);
    case RejectTrip(d, o, _, _, now, found) => RejectTripAsked(db, ix, d, o, now, found);
    case SweepTrip(o, locked, now, found) => SweepTripAsked(db, ix, o, locked, now, found);
    case _ => OtherAsked(db, cmd);
  }

  /** The other commands leave a matching Trip as it is, or make it something else. */
  lemma OtherAsked(db: Db, cmd: Command)
    requires Joined(db) && Asked(db)
    requires !cmd.StartTrip? && !cmd.AcceptTrip? && !cmd.RejectTrip? && !cmd.SweepTrip?
    ensures var db', j := Execute(db, cmd).0, Subject(db, cmd);
            j in db'.core.jobs ==> AskedOf(db'.core, db'.journal, j)
  {
    var db', j := Execute(db, cmd).0, Subject(db, cmd);
    OtherSame(db, cmd);
    hide Execute, AskedAt, MaxAttempt, Joined;
    if j in db.core.jobs && j.Trip? && j in db'.core.jobs && db'.core.jobs[j].state.Matching? {
      assert AskedOf(db.core, db.journal, j);
      SameCount(db.core, db'.core, j);
    }
  }

  /** These touch no aggregate. */
  lemma AccountSame(db: Db, cmd: Command)
    requires Joined(db) && (cmd.SetWork? || cmd.IssueQuote? || cmd.Capture?)
    ensures var db' := Execute(db, cmd).0;
            db'.core.jobs == db.core.jobs && db'.core.offers == db.core.offers && db'.journal == db.journal
  {
    hide Price, Joined;
  }

  /** A new Trip is not matching yet. */
  lemma BookingSame(db: Db, cmd: Command)
    requires Joined(db) && cmd.CreateTrip?
    ensures var db', j := Execute(db, cmd).0, Subject(db, cmd);
            db' == db || (j in db'.core.jobs && db'.core.jobs[j].state.Requested?)
  {
    hide HasActiveTrip, Joined;
  }

  lemma JobKnown(db: Db, j: Job)
    requires Joined(db) && j in db.core.jobs
    ensures Known(db, j)
  {
  }

  lemma DeliveryOfferSame(db: Db, cmd: Command)
    requires Joined(db) && (cmd.AcceptDelivery? || cmd.SweepDelivery?)
    ensures JobOf(db.core, cmd.offer).Trip? ==> Execute(db, cmd).0 == db
  {
    hide Joined, Hire, Expire, Exhaust;
  }

  lemma OtherSame(db: Db, cmd: Command)
    requires Joined(db)
    requires !cmd.StartTrip? && !cmd.AcceptTrip? && !cmd.RejectTrip? && !cmd.SweepTrip?
    ensures var db', j := Execute(db, cmd).0, Subject(db, cmd);
            j.Trip? && j in db'.core.jobs && db'.core.jobs[j].state.Matching? ==>
              && j in db.core.jobs && db'.core.jobs[j] == db.core.jobs[j] && db'.core.offers == db.core.offers
              && j in db'.journal.outbox && j in db.journal.outbox && db'.journal.outbox[j] == db.journal.outbox[j]
  {
    hide Joined, DoAcceptDelivery, DoSweepDelivery, DoStartDelivery, DoDriveDelivery;
    hide DoSetWork, DoIssueQuote, DoCreateTrip, DoCreateDelivery, DoCapture;
    hide DoStartTrip, DoAcceptTrip, DoRejectTrip, DoSweepTrip, DoDriveTrip, DoCancelTrip;
    if Subject(db, cmd) in db.core.jobs { JobKnown(db, Subject(db, cmd)); }
    if cmd.DriveTrip? || cmd.CancelTrip? {
      DrivenSame(db, cmd);
    } else if cmd.AcceptDelivery? || cmd.SweepDelivery? {
      DeliveryOfferSame(db, cmd);
    } else if cmd.CreateTrip? {
      BookingSame(db, cmd);
    } else if cmd.SetWork? || cmd.IssueQuote? || cmd.Capture? {
      AccountSame(db, cmd);
    }
  }

  lemma DrivenSame(db: Db, cmd: Command)
    requires Joined(db) && (cmd.DriveTrip? || cmd.CancelTrip?)
    ensures var db', j := Execute(db, cmd).0, Trip(cmd.id);
            j in db'.core.jobs && db'.core.jobs[j].state.Matching? ==> db' == db
  {
    hide PendingOffer, WorkingAssignment, AssignmentOf, Price;
    var j := Trip(cmd.id);
    if cmd.DriveTrip? {
      if AssignmentOf(db.core, j, cmd.driver).Some? { AssignmentFound(db, j, cmd.driver); }
    } else if WorkingAssignment(db.core, j).Some? {
      WorkingFound(db.core, j);
    }
  }

  // ---- Transactions

  /** Every transaction keeps the invariant, and undoes nothing. */
  lemma ApplyKeeps(db: Db, cmd: Command)
    requires Inv(db)
    ensures Joined(db)
    ensures Inv(Apply(db, cmd).0) && Later(db, Apply(db, cmd).0)
  {
    InvJoined(db);
    var ix :| Holds(db, ix);
    var k := KeyOf(cmd);
    if k.Some? && k.value in db.receipts {
      LaterSelf(db);
    } else {
      var ix' := ExecuteKeeps(db, ix, cmd);
      SubjectWaits(db, ix, cmd);
      SubjectAsked(db, ix, cmd);
      var run := Execute(db, cmd);
      OutboxKeys(run.0, ix');
      hide Sound, Joined, Execute, Receipted, Waiting, Asked, Evolves, KeyOf, FingerprintOf, Later;
      WaitingKept(db, run.0, Subject(db, cmd), Hired(db, cmd));
      AskedElsewhere(db, run.0, Subject(db, cmd), Hired(db, cmd));
      ReceiptedKept(db, cmd, Apply(db, cmd).0);
      RecordedLater(db, run, k, FingerprintOf(cmd), Subject(db, cmd), Hired(db, cmd));
      RecordedHolds(run, k, FingerprintOf(cmd), ix');
      assert Holds(Apply(db, cmd).0, ix');
    }
  }

  lemma OutboxKeys(db: Db, ix: Index)
    requires Sound(db, ix)
    ensures db.journal.outbox.Keys == db.core.jobs.Keys
  {
  }

  lemma RecordedLater(
      db: Db, result: (Db, Outcome), k: Option<ReceiptKey>, fingerprint: Id, j: Job, hired: Option<Id>)
    requires Evolves(db, result.0, j, hired) && (k.Some? ==> k.value !in db.receipts)
    ensures Later(db, Recorded(result, k, fingerprint).0)
  {
    hide CoreLater, LogLater, OutboxLater, BooksLater;
  }

  lemma RecordedHolds(result: (Db, Outcome), k: Option<ReceiptKey>, fingerprint: Id, ix: Index)
    requires Sound(result.0, ix) && Waiting(result.0.core) && Asked(result.0)
    ensures var db' := Recorded(result, k, fingerprint).0; Sound(db', ix) && Waiting(db'.core) && Asked(db')
  {
    hide Linked, Logged, Settled, Waiting, AskedOf;
  }

  // ---- Runs

  /** The database after one command. */
  ghost function Step(db: Db, cmd: Command): (db': Db)
    requires Inv(db)
    ensures Inv(db') && Later(db, db')
  {
    ApplyKeeps(db, cmd);
    Apply(db, cmd).0
  }

  /** The database after a run of commands. */
  ghost function After(db: Db, cmds: seq<Command>): (db': Db)
    requires Inv(db)
    ensures Inv(db') && Later(db, db')
    decreases |cmds|
  {
    LaterSelf(db);
    if cmds == [] then db else
    var db1 := Step(db, cmds[0]);
    var db' := After(db1, cmds[1..]);
    LaterChain(db, db1, db');
    db'
  }

  /** How a command would end. */
  ghost function Answer(db: Db, cmd: Command): Outcome
    requires Inv(db)
  {
    InvJoined(db);
    Apply(db, cmd).1
  }

  /** Some run leads from one database to the other. */
  ghost predicate Leads(db: Db, db': Db)
    requires Inv(db)
  {
    exists cmds :: After(db, cmds) == db'
  }

  /** Some run leads to the database from the empty one. */
  ghost predicate Reachable(db: Db) {
    EmptyHolds();
    Leads(EmptyDb(), db)
  }

  lemma {:induction false} AfterOneMore(db: Db, cmds: seq<Command>, cmd: Command)
    requires Inv(db)
    ensures After(db, cmds + [cmd]) == Step(After(db, cmds), cmd)
    decreases |cmds|
  {
    hide Inv, Step;
    if cmds == [] {
      assert ([] + [cmd])[0] == cmd && ([] + [cmd])[1..] == [];
      assert After(Step(db, cmd), []) == Step(db, cmd);
      assert cmds + [cmd] == [cmd];
    } else {
      assert (cmds + [cmd])[0] == cmds[0] && (cmds + [cmd])[1..] == cmds[1..] + [cmd];
      AfterOneMore(Step(db, cmds[0]), cmds[1..], cmd);
    }
  }

  /** A run may always go on, and every database it passes satisfies the invariant. */
  lemma LeadsOn(db: Db, db1: Db, cmd: Command)
    requires Inv(db) && Leads(db, db1)
    ensures Inv(db1) && Leads(db, Step(db1, cmd))
  {
    hide Inv, Step, After;
    var cmds :| After(db, cmds) == db1;
    AfterOneMore(db, cmds, cmd);
    assert After(db, cmds + [cmd]) == Step(db1, cmd);
  }

  lemma LeadsSelf(db: Db)
    requires Inv(db)
    ensures Leads(db, db)
  {
    hide Inv;
    assert After(db, []) == db;
  }

  /** Every reachable database satisfies the invariant. */
  lemma ReachableInv(db: Db)
    requires Reachable(db)
    ensures Inv(db)
  {
    hide Inv;
    EmptyHolds();
    var cmds :| After(EmptyDb(), cmds) == db;
  }
}
