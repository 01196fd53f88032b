/**
 * Idempotency keys over whole runs: a recorded answer is repeated forever, and which executions
 * under one key can change the database.
 */
module Idempotency {
  import opened Basics
  import opened Fare
  import opened Tables
  import opened Events
  import opened Steps
  import opened History
  import opened Queries
  import opened Commands
  import opened MatchingSafety
  import opened Runs

  /** The guard of the late branch of acceptOffer and rejectOffer, with those before it. */
  predicate LateAnswer(db: Db, cmd: Command) {
    && (cmd.AcceptTrip? || cmd.RejectTrip?) && KeyOf(cmd).value !in db.receipts
    && cmd.offer in db.core.offers && db.core.offers[cmd.offer].job.Trip?
    && db.core.offers[cmd.offer].driver == cmd.driver && db.core.offers[cmd.offer].status.Pending?
    && db.core.offers[cmd.offer].expiresAt <= cmd.now
  }

  /** What meets it, and nothing else, is answered that the offer is expired. */
  lemma LateIff(db: Db, cmd: Command)
    requires Inv(db) && (cmd.AcceptTrip? || cmd.RejectTrip?)
    ensures Answer(db, cmd) == Declined(OfferIsExpired) <==> LateAnswer(db, cmd)
  {
    hide Inv, Joined, Search, NextDriver, Refuse, Expire, Hire;
    InvJoined(db);
  }

  /** The same kind of keyed request, by the same user, under the same key. */
  predicate SameRequestKey(a: Command, b: Command) {
    match a
    case CreateTrip(customer, _, key, _, _) => b.CreateTrip? && b.customer == customer && b.key == key
    case StartTrip(customer, _, key, _, _, _) => b.StartTrip? && b.customer == customer && b.key == key
    case AcceptTrip(driver, _, key, _, _) => b.AcceptTrip? && b.driver == driver && b.key == key
    case RejectTrip(driver, _, key, _, _, _) => b.RejectTrip? && b.driver == driver && b.key == key
    case DriveTrip(driver, _, action, key, _, _, _) => b.DriveTrip? && b.driver == driver && b.action == action && b.key == key
    case CancelTrip(customer, _, key, _) => b.CancelTrip? && b.customer == customer && b.key == key
    case CreateDelivery(customer, key, _) => b.CreateDelivery? && b.customer == customer && b.key == key
    case StartDelivery(customer, _, key, _, _, _) => b.StartDelivery? && b.customer == customer && b.key == key
    case DriveDelivery(driver, _, action, key, _, _) =>
      b.DriveDelivery? && b.driver == driver && b.action == action && b.key == key
    case Capture(customer, _, key, _, _) => b.Capture? && b.customer == customer && b.key == key
    case _ => false
  }

  /** Requests share a receipt exactly then; the other kinds have none. */
  lemma KeysApart(a: Command, b: Command)
    ensures KeyOf(a).Some? && KeyOf(a) == KeyOf(b) <==> SameRequestKey(a, b)
  {
  }

  /** What is answered once under a key is answered ever after, and a different request is refused. */
  lemma AnsweredForever(db: Db, cmd: Command, cmds: seq<Command>, again: Command)
    requires Inv(db) && KeyOf(cmd).Some? && KeyOf(again) == KeyOf(cmd) && Answer(db, cmd).Ok?
    ensures var db' := After(Step(db, cmd), cmds);
            && Step(db', again) == db'
            && Answer(db', again) == if again.fingerprint == cmd.fingerprint then Answer(db, cmd) else Thrown(KeyReused)
  {
    hide Execute, Joined, Inv, After;
    var k, db1 := KeyOf(cmd).value, Step(db, cmd);
    RecordedOnce(db, cmd);
    var db' := After(db1, cmds);
    assert ReceiptsLater(db1.receipts, db'.receipts);
    InvJoined(db');
    assert k in db'.receipts && db'.receipts[k] == db1.receipts[k];
  }

  /** The receipt that stands for the command's key once it has been answered. */
  ghost function ReceiptOf(db: Db, cmd: Command): Receipt
    requires Inv(db) && KeyOf(cmd).Some? && Answer(db, cmd).Ok?
  {
    RecordedOnce(db, cmd);
    Step(db, cmd).receipts[KeyOf(cmd).value]
  }

  lemma RecordedOnce(db: Db, cmd: Command)
    requires Inv(db) && KeyOf(cmd).Some? && Answer(db, cmd).Ok?
    ensures KeyOf(cmd).value in Step(db, cmd).receipts
    ensures var r := Step(db, cmd).receipts[KeyOf(cmd).value];
            r.fingerprint == FingerprintOf(cmd) && Ok(r.response) == Answer(db, cmd)
  {
    hide Execute, Joined, Inv;
    InvJoined(db);
  }

  // ---- Which executions change the database

  lemma SearchEnds(db: Db, cmd: Command)
    requires Joined(db) && (cmd.StartTrip? || cmd.RejectTrip? || cmd.SweepTrip?)
    ensures Execute(db, cmd).1.Thrown? ==> Execute(db, cmd).0 == db
    ensures Execute(db, cmd).1.Declined? ==>
              Execute(db, cmd).0 == db || (Execute(db, cmd).1 == Declined(OfferIsExpired) && cmd.RejectTrip?)
  {
    hide Search, NextDriver, PendingOffer, BeginMatching, Refuse, Lapse, Expire;
  }

  /** A transaction that throws leaves no trace; one that declines leaves at most an expired offer. */
  lemma FailureKeeps(db: Db, cmd: Command)
    requires Joined(db)
    ensures Execute(db, cmd).1.Thrown? ==> Execute(db, cmd).0 == db
    ensures Execute(db, cmd).1.Declined? ==>
              Execute(db, cmd).0 == db || (Execute(db, cmd).1 == Declined(OfferIsExpired) && (cmd.AcceptTrip? || cmd.RejectTrip?))
  {
    if cmd.StartTrip? || cmd.RejectTrip? || cmd.SweepTrip? {
      SearchEnds(db, cmd);
    } else {
      hide PendingOffer, WorkingAssignment, AssignmentOf, Price, FirstClaim, Candidates, HasActiveTrip, Hire, Drive,
           Finish, Enter, Cancelling, Drop, Exhaust, OfferNext, BeginMatching, Expire, Book;
    }
  }

  lemma LateChanges(db: Db, cmd: Command)
    requires Joined(db) && (cmd.AcceptTrip? || cmd.RejectTrip?) && Execute(db, cmd).1 == Declined(OfferIsExpired)
    ensures cmd.offer in db.core.offers && db.core.offers[cmd.offer].status.Pending?
    ensures cmd.offer in Execute(db, cmd).0.core.offers && Execute(db, cmd).0.core.offers[cmd.offer].status.Expired?
  {
    hide Search, NextDriver, Refuse;
  }

  /** A command changes the database exactly when its key is unused and it is answered, or answered late. */
  lemma ChangesIff(db: Db, cmd: Command)
    requires Inv(db) && KeyOf(cmd).Some?
    ensures Step(db, cmd) != db <==>
              KeyOf(cmd).value !in db.receipts && (Answer(db, cmd).Ok? || LateAnswer(db, cmd))
  {
    hide Execute, Joined, Inv;
    InvJoined(db);
    FailureKeeps(db, cmd);
    if KeyOf(cmd).value !in db.receipts {
      if Answer(db, cmd).Ok? {
        RecordedOnce(db, cmd);
      } else if LateAnswer(db, cmd) {
        LateIff(db, cmd);
        LateChanges(db, cmd);
      } else if cmd.AcceptTrip? || cmd.RejectTrip? {
        LateIff(db, cmd);
      }
    }
  }

  /**
   * Of two executions under one key that both change the database, the first is a late answer to
   * an offer and the second concerns another offer. So at most one execution of each kind but
   * these, and at most one for each offer, changes anything.
   */
  lemma ChangesOnce(db: Db, cmd: Command, cmds: seq<Command>, again: Command)
    requires Inv(db) && KeyOf(cmd).Some? && KeyOf(again) == KeyOf(cmd)
    requires Step(db, cmd) != db
    requires var db' := After(Step(db, cmd), cmds); Step(db', again) != db'
    ensures LateAnswer(db, cmd) && (again.AcceptTrip? || again.RejectTrip?) && again.offer != cmd.offer
  {
    hide Inv, Joined, After, Step, Answer;
    if Answer(db, cmd).Ok? {
      AnsweredForever(db, cmd, cmds, again);
    } else {
      ChangesIff(db, cmd);
      LateThenOther(db, cmd, cmds, again);
    }
  }

  /** After a late answer its offer is expired, for good. */
  lemma LateForever(db: Db, cmd: Command, cmds: seq<Command>)
    requires Inv(db) && LateAnswer(db, cmd)
    ensures var c := After(Step(db, cmd), cmds).core; cmd.offer in c.offers && c.offers[cmd.offer].status.Expired?
  {
    hide Inv, Execute, Joined, After;
    InvJoined(db);
    LateIff(db, cmd);
    LateChanges(db, cmd);
    var db1 := Step(db, cmd);
    assert OffersLater(db1.core.offers, After(db1, cmds).core.offers);
    assert OfferLater(db1.core.offers[cmd.offer], After(db1, cmds).core.offers[cmd.offer]);
  }

  lemma LateThenOther(db: Db, cmd: Command, cmds: seq<Command>, again: Command)
    requires Inv(db) && KeyOf(cmd).Some? && KeyOf(again) == KeyOf(cmd)
    requires LateAnswer(db, cmd)
    requires var db' := After(Step(db, cmd), cmds); Step(db', again) != db'
    ensures (again.AcceptTrip? || again.RejectTrip?) && again.offer != cmd.offer
  {
    hide Inv, After, Step, Answer;
    LateForever(db, cmd, cmds);
    assert again.AcceptTrip? || again.RejectTrip?;
    if again.offer == cmd.offer {
      ResolvedIgnored(After(Step(db, cmd), cmds), again);
    }
  }

  /** An answer to an offer that is not pending changes nothing. */
  lemma ResolvedIgnored(db: Db, cmd: Command)
    requires Inv(db) && (cmd.AcceptTrip? || cmd.RejectTrip?)
    requires cmd.offer in db.core.offers && !db.core.offers[cmd.offer].status.Pending?
    ensures Step(db, cmd) == db
  {
    hide Inv, Joined, Execute;
    InvJoined(db);
    ResolvedExecutes(db, cmd);
  }

  lemma ResolvedExecutes(db: Db, cmd: Command)
    requires Joined(db) && (cmd.AcceptTrip? || cmd.RejectTrip?)
    requires cmd.offer in db.core.offers && !db.core.offers[cmd.offer].status.Pending?
    ensures Execute(db, cmd).0 == db && !Execute(db, cmd).1.Ok?
  {
    hide Search, NextDriver, Refuse, Expire, Hire;
  }
}
