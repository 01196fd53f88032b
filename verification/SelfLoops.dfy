/**
 * The log rows with which a matching Trip stays matching one version on, and the offers that they
 * consume: each its own, which a Driver rejected or a sweep expired.
 */
module SelfLoops {
  import opened Basics
  import opened Fare
  import opened Tables
  import opened Events
  import opened Commitments
  import opened Steps
  import opened History
  import R = Ranking
  import opened Queries
  import opened Commands
  import opened CommandProofs
  import opened MatchingSafety
  import opened Runs

  predicate IsLoop(t: Transition) {
    t.act.RejectOffer? || t.act.ExpireOffer?
  }

  /** The offer is the one whose end the row records. */
  predicate Ends(t: Transition, f: Offer) {
    if t.act.RejectOffer? then f.status.Rejected? && t.actor == Some(f.driver) else f.status.Expired?
  }

  /** An injection from an aggregate's self-loops to its offers that ended so. */
  predicate Consumes(log: seq<Transition>, offers: map<Id, Offer>, j: Job, offerOf: map<nat, Id>) {
    && (forall k | 0 <= k < |log| && IsLoop(log[k]) :: k in offerOf)
    && (forall k {:trigger offerOf[k]} | k in offerOf ::
          && k < |log| && IsLoop(log[k])
          && offerOf[k] in offers && offers[offerOf[k]].job == j && Ends(log[k], offers[offerOf[k]]))
    && (forall k, l | k in offerOf && l in offerOf && offerOf[k] == offerOf[l] :: k == l)
  }

  ghost predicate Consumed(db: Db, j: Job)
    requires j in db.journal.log
  {
    exists offerOf :: Consumes(db.journal.log[j], db.core.offers, j, offerOf)
  }

  ghost predicate ConsumedAll(db: Db) {
    forall j | j in db.journal.log :: Consumed(db, j)
  }

  // ---- What leaves the self-loops as they are

  function Length(log: map<Job, seq<Transition>>, j: Job): nat {
    if j in log then |log[j]| else 0
  }

  /** No self-loop is logged. */
  ghost predicate Quiet(log: map<Job, seq<Transition>>, log': map<Job, seq<Transition>>) {
    forall j, k {:trigger log'[j][k]} | j in log' && Length(log, j) <= k < |log'[j]| :: !IsLoop(log'[j][k])
  }

  lemma AdvanceQuiet(
      db: Db, j: Job, to: State, act: Act, actor: Option<Id>, kind: EventKind, carried: Option<State>, drivers: set<Id>)
    requires Known(db, j) && !act.RejectOffer? && !act.ExpireOffer?
    ensures Quiet(db.journal.log, Advance(db, j, to, act, actor, kind, carried, drivers).journal.log)
    ensures LogLater(db.journal.log, Advance(db, j, to, act, actor, kind, carried, drivers).journal.log)
    ensures Advance(db, j, to, act, actor, kind, carried, drivers).core.offers == db.core.offers
  {
  }

  lemma ProposeQuiet(db: Db, j: Job, d: Id, expiresAt: Time, attempt: nat, kind: EventKind)
    requires Known(db, j) && d in db.core.work
    ensures Propose(db, j, d, expiresAt, attempt, kind).journal.log == db.journal.log
  {
  }

  lemma QuietThen(
      log: map<Job, seq<Transition>>, log1: map<Job, seq<Transition>>, log': map<Job, seq<Transition>>)
    requires Quiet(log, log1) && Quiet(log1, log') && LogLater(log, log1) && LogLater(log1, log')
    ensures Quiet(log, log') && LogLater(log, log')
  {
    forall j, k | j in log' && Length(log, j) <= k < |log'[j]| ensures !IsLoop(log'[j][k]) {
      if k < Length(log1, j) { assert log'[j][k] == log1[j][k]; }
    }
  }

  lemma SearchQuiet(
      db: Db, j: Job, excluded: Option<Id>, now: Time, found: seq<R.Candidate>, kind: EventKind, act: Act,
      actor: Option<Id>)
    requires Known(db, j) && !act.RejectOffer? && !act.ExpireOffer?
    requires Search(db, j, excluded, now, found, kind, act, actor).Some?
    ensures var log' := Search(db, j, excluded, now, found, kind, act, actor).value.0.journal.log;
            Quiet(db.journal.log, log') && LogLater(db.journal.log, log')
  {
    hide NextDriver, MaxAttempt, Advance, Propose, Quiet, LogLater;
    var next := NextDriver(db, j, excluded, found, kind);
    if next.Nobody? {
      AdvanceQuiet(db, j, NoDriverAvailable, act, actor, NoDriverEvent, Some(NoDriverAvailable), {});
    } else {
      ProposeQuiet(db, j, next.driver, now + OFFER_TTL_MS, MaxAttempt(db.core, j) + 1, kind);
      SameQuiet(db.journal.log);
    }
  }

  lemma SameQuiet(log: map<Job, seq<Transition>>)
    ensures Quiet(log, log) && LogLater(log, log)
  {
  }

  // ---- The commands that log none

  lemma StartsQuiet(db: Db, cmd: Command)
    requires Joined(db) && (cmd.StartTrip? || cmd.StartDelivery?)
    ensures Quiet(db.journal.log, Execute(db, cmd).0.journal.log)
  {
    hide Search, NextDriver, PendingOffer, Candidates, FirstClaim, Advance, Propose, Quiet, LogLater, MaxAttempt, Matched, Joined;
    SameQuiet(db.journal.log);
    var j := if cmd.StartTrip? then Trip(cmd.id) else Delivery(cmd.id);
    if j in db.core.jobs {
      JobKnown(db, j);
      var actor := if cmd.StartTrip? then None else Some(cmd.customer);
      AdvanceQuiet(db, j, Matching, StartMatching, actor, MatchingStarted, Some(Matching), {});
      AdvanceKnown(db, j, actor);
      var db1 := BeginMatching(db, j, actor);
      if cmd.StartDelivery? {
        StartedQuiet(db, db1, j, cmd.now, cmd.found);
      } else {
        if Search(db, j, None, cmd.now, cmd.found, OfferCreated, ExhaustMatching, None).Some? {
          SearchQuiet(db, j, None, cmd.now, cmd.found, OfferCreated, ExhaustMatching, None);
        }
        if Search(db1, j, None, cmd.now, cmd.found, OfferCreated, ExhaustMatching, None).Some? {
          SearchQuiet(db1, j, None, cmd.now, cmd.found, OfferCreated, ExhaustMatching, None);
          QuietThen(db.journal.log, db1.journal.log,
                    Search(db1, j, None, cmd.now, cmd.found, OfferCreated, ExhaustMatching, None).value.0.journal.log);
        }
      }
    }
  }

  lemma AdvanceKnown(db: Db, j: Job, actor: Option<Id>)
    requires Known(db, j)
    ensures Known(BeginMatching(db, j, actor), j)
  {
  }

  lemma StartedQuiet(db: Db, db1: Db, j: Job, now: Time, found: seq<R.Candidate>)
    requires Known(db1, j) && Quiet(db.journal.log, db1.journal.log) && LogLater(db.journal.log, db1.journal.log)
    ensures Quiet(db.journal.log, Exhaust(db1, j, ExhaustMatching, None).journal.log)
    ensures forall d | d in db1.core.work :: Quiet(db.journal.log, OfferNext(db1, j, d, now, 1, OfferCreated).journal.log)
  {
    hide Advance, Quiet, LogLater, Propose;
    AdvanceQuiet(db1, j, NoDriverAvailable, ExhaustMatching, None, NoDriverEvent, Some(NoDriverAvailable), {});
    QuietThen(db.journal.log, db1.journal.log, Exhaust(db1, j, ExhaustMatching, None).journal.log);
    forall d | d in db1.core.work ensures Quiet(db.journal.log, OfferNext(db1, j, d, now, 1, OfferCreated).journal.log) {
      ProposeQuiet(db1, j, d, now + OFFER_TTL_MS, 1, OfferCreated);
    }
  }

  lemma DrivesQuiet(db: Db, cmd: Command)
    requires Joined(db) && (cmd.DriveTrip? || cmd.DriveDelivery?)
    ensures Quiet(db.journal.log, Execute(db, cmd).0.journal.log)
  {
    hide Progress, Release, Price, AssignmentOf, Reply, PositiveSafe, InOrder;
    var j := if cmd.DriveTrip? then Trip(cmd.id) else Delivery(cmd.id);
    if AssignmentOf(db.core, j, cmd.driver).Some? { AssignmentFound(db, j, cmd.driver); }
    hide Joined;
  }

  lemma AnswersQuiet(db: Db, cmd: Command)
    requires Joined(db) && (cmd.AcceptTrip? || cmd.AcceptDelivery? || cmd.SweepDelivery?)
    ensures Quiet(db.journal.log, Execute(db, cmd).0.journal.log)
  {
    hide Engage, ShutOffer, Move;
  }

  lemma CancelQuiet(db: Db, cmd: Command)
    requires Joined(db) && cmd.CancelTrip?
    ensures Quiet(db.journal.log, Execute(db, cmd).0.journal.log)
  {
    hide ShutOffer, Release, Move, PendingOffer, WorkingAssignment;
    var j := Trip(cmd.id);
    if PendingOffer(db.core, j).Some? { PendingFound(db.core, j); }
    if WorkingAssignment(db.core, j).Some? { WorkingFound(db.core, j); }
  }

  lemma BooksQuiet(db: Db, cmd: Command)
    requires Joined(db)
    requires cmd.SetWork? || cmd.IssueQuote? || cmd.CreateTrip? || cmd.CreateDelivery? || cmd.Capture?
    ensures Quiet(db.journal.log, Execute(db, cmd).0.journal.log)
  {
    hide Joined, AddJob, HasActiveTrip, Price, Duty;
  }

  // ---- Every command keeps the injection

  lemma QuietKeeps(db: Db, db': Db)
    requires ConsumedAll(db) && Quiet(db.journal.log, db'.journal.log) && LogLater(db.journal.log, db'.journal.log)
    requires OffersLater(db.core.offers, db'.core.offers)
    ensures ConsumedAll(db')
  {
    forall j | j in db'.journal.log ensures Consumed(db', j) {
      if j in db.journal.log {
        assert Consumed(db, j);
        var offerOf :| Consumes(db.journal.log[j], db.core.offers, j, offerOf);
        ConsumesOn(db.journal.log[j], db'.journal.log[j], db.core.offers, db'.core.offers, j, offerOf);
      } else {
        assert Consumes(db'.journal.log[j], db'.core.offers, j, map[]);
      }
    }
  }

  lemma ConsumesOn(
      log: seq<Transition>, log': seq<Transition>, offers: map<Id, Offer>, offers': map<Id, Offer>, j: Job,
      offerOf: map<nat, Id>)
    requires Consumes(log, offers, j, offerOf) && log <= log' && OffersLater(offers, offers')
    requires forall k | |log| <= k < |log'| :: !IsLoop(log'[k])
    ensures Consumes(log', offers', j, offerOf)
  {
    forall k | k in offerOf ensures offerOf[k] in offers' && offers'[offerOf[k]] == offers[offerOf[k]] {
      assert OfferLater(offers[offerOf[k]], offers'[offerOf[k]]);
    }
  }

  /** A self-loop consumes an offer that was pending until then, so none that was consumed before. */
  lemma LoopKeeps(db: Db, db1: Db, o: Id, t: Transition)
    requires ConsumedAll(db) && OffersLater(db.core.offers, db1.core.offers)
    requires o in db.core.offers && db.core.offers[o].status.Pending? && db.core.offers[o].job in db.journal.log
    requires o in db1.core.offers && db1.core.offers[o].job == db.core.offers[o].job && Ends(t, db1.core.offers[o]) && IsLoop(t)
    requires var j := db.core.offers[o].job; db1.journal.log == db.journal.log[j := db.journal.log[j] + [t]]
    ensures ConsumedAll(db1)
  {
    var i := db.core.offers[o].job;
    forall j | j in db1.journal.log ensures Consumed(db1, j) {
      assert Consumed(db, j);
      var offerOf :| Consumes(db.journal.log[j], db.core.offers, j, offerOf);
      if j == i {
        ConsumesMore(db.journal.log[j], t, db.core.offers, db1.core.offers, j, offerOf, o);
      } else {
        ConsumesOn(db.journal.log[j], db1.journal.log[j], db.core.offers, db1.core.offers, j, offerOf);
      }
    }
  }

  lemma ConsumesMore(
      log: seq<Transition>, t: Transition, offers: map<Id, Offer>, offers': map<Id, Offer>, j: Job,
      offerOf: map<nat, Id>, o: Id)
    requires Consumes(log, offers, j, offerOf) && OffersLater(offers, offers') && IsLoop(t)
    requires o in offers && offers[o].status.Pending? && o in offers' && offers'[o].job == j && Ends(t, offers'[o])
    ensures Consumes(log + [t], offers', j, offerOf[|log| := o])
  {
    forall k | k in offerOf ensures offerOf[k] in offers' && offers'[offerOf[k]] == offers[offerOf[k]] && offerOf[k] != o {
      assert OfferLater(offers[offerOf[k]], offers'[offerOf[k]]);
    }
  }

  lemma EvolvesOffers(db: Db, db': Db, j: Job, hired: Option<Id>)
    requires Evolves(db, db', j, hired)
    ensures OffersLater(db.core.offers, db'.core.offers) && LogLater(db.journal.log, db'.journal.log)
  {
    hide OffersLater, LogLater;
  }

  /** The one log row and the one offer of a rejection, and of a sweep. */
  lemma LoopRows(db: Db, o: Id)
    requires OfferRows(db.core, o) && Known(db, db.core.offers[o].job)
    ensures var f, row := db.core.offers[o], db.core.jobs[db.core.offers[o].job];
            var log := db.journal.log;
            var rejected := Transition(Act.RejectOffer, Some(f.driver), Some(row.state), Matching, Some(row.version), row.version + 1);
            var swept := Transition(Act.ExpireOffer, None, Some(row.state), Matching, Some(row.version), row.version + 1);
            && Refuse(db, o).journal.log == log[f.job := log[f.job] + [rejected]]
            && o in Refuse(db, o).core.offers && Refuse(db, o).core.offers[o] == f.(status := Rejected)
            && Lapse(db, o).journal.log == log[f.job := log[f.job] + [swept]]
            && o in Lapse(db, o).core.offers && Lapse(db, o).core.offers[o] == f.(status := Expired)
  {
  }

  lemma RefuseLoops(db: Db, ix: Index, o: Id)
    requires Sound(db, ix) && ConsumedAll(db)
    requires o in db.core.offers && db.core.offers[o].status.Pending? && db.core.offers[o].job.Trip?
    ensures OfferRows(db.core, o) && Known(db, db.core.offers[o].job) && ConsumedAll(Refuse(db, o))
  {
    hide Sound, ConsumedAll, OffersLater, LogLater, Searching, Evolves, Refuse, Lapse;
    RefuseKeeps(db, ix, o);
    EvolvesOffers(db, Refuse(db, o), db.core.offers[o].job, None);
    LoopRows(db, o);
    var f, row := db.core.offers[o], db.core.jobs[db.core.offers[o].job];
    LoopKeeps(db, Refuse(db, o), o,
              Transition(Act.RejectOffer, Some(f.driver), Some(row.state), Matching, Some(row.version), row.version + 1));
  }

  lemma LapseLoops(db: Db, ix: Index, o: Id)
    requires Sound(db, ix) && ConsumedAll(db)
    requires o in db.core.offers && db.core.offers[o].status.Pending? && db.core.offers[o].job.Trip?
    ensures OfferRows(db.core, o) && Known(db, db.core.offers[o].job) && ConsumedAll(Lapse(db, o))
  {
    hide Sound, ConsumedAll, OffersLater, LogLater, Searching, Evolves, Refuse, Lapse;
    LapseKeeps(db, ix, o);
    EvolvesOffers(db, Lapse(db, o), db.core.offers[o].job, None);
    LoopRows(db, o);
    var row := db.core.jobs[db.core.offers[o].job];
    LoopKeeps(db, Lapse(db, o), o,
              Transition(Act.ExpireOffer, None, Some(row.state), Matching, Some(row.version), row.version + 1));
  }

  lemma ExhaustingQuiet(j: Job, act: Act)
    requires Exhausting(j, act)
    ensures !act.RejectOffer? && !act.ExpireOffer?
  {
  }

  lemma SearchLoops(
      db: Db, ix: Index, j: Job, excluded: Option<Id>, now: Time, found: seq<R.Candidate>, act: Act, actor: Option<Id>)
    requires Searching(db, ix, j) && j.Trip? && Exhausting(j, act) && ConsumedAll(db)
    requires Search(db, j, excluded, now, found, OfferReassigned, act, actor).Some?
    ensures ConsumedAll(Search(db, j, excluded, now, found, OfferReassigned, act, actor).value.0)
  {
    hide Search, Sound, Quiet, ConsumedAll, OffersLater, LogLater, Evolves, Searching, Exhausting;
    SearchingKnown(db, ix, j);
    ExhaustingQuiet(j, act);
    var ix' := SearchKeeps(db, ix, j, excluded, now, found, OfferReassigned, act, actor);
    SearchQuiet(db, j, excluded, now, found, OfferReassigned, act, actor);
    var db' := Search(db, j, excluded, now, found, OfferReassigned, act, actor).value.0;
    EvolvesOffers(db, db', j, None);
    QuietKeeps(db, db');
  }

  lemma LoopCommandKeeps(db: Db, ix: Index, cmd: Command)
    requires Sound(db, ix) && Joined(db) && ConsumedAll(db) && (cmd.RejectTrip? || cmd.SweepTrip?)
    requires Execute(db, cmd).1 != Declined(OfferIsExpired)
    ensures ConsumedAll(Execute(db, cmd).0)
  {
    hide Sound, ConsumedAll, Search, NextDriver, Refuse, Lapse, Expire, Joined, Searching, Evolves;
    var o := cmd.offer;
    if o in db.core.offers && db.core.offers[o].job.Trip? && db.core.offers[o].status.Pending? {
      var j, d := db.core.offers[o].job, db.core.offers[o].driver;
      if cmd.RejectTrip? {
        RefuseKeeps(db, ix, o);
        RefuseLoops(db, ix, o);
        var db1 := Refuse(db, o);
        SearchingKnown(db1, ix, j);
        if Search(db1, j, Some(d), cmd.now, cmd.found, OfferReassigned, ExhaustAfterReject, Some(d)).Some? {
          SearchLoops(db1, ix, j, Some(d), cmd.now, cmd.found, ExhaustAfterReject, Some(d));
        }
      } else {
        LapseKeeps(db, ix, o);
        LapseLoops(db, ix, o);
        var db1 := Lapse(db, o);
        SearchingKnown(db1, ix, j);
        if Search(db1, j, Some(d), cmd.now, cmd.found, OfferReassigned, ExpireNoReassignment, None).Some? {
          SearchLoops(db1, ix, j, Some(d), cmd.now, cmd.found, ExpireNoReassignment, None);
        }
      }
    }
  }

  lemma SearchingKnown(db: Db, ix: Index, j: Job)
    requires Searching(db, ix, j)
    ensures Known(db, j)
  {
  }

  lemma LateQuiet(db: Db, cmd: Command)
    requires Joined(db) && cmd.RejectTrip? && Execute(db, cmd).1 == Declined(OfferIsExpired)
    ensures Execute(db, cmd).0.journal == db.journal
  {
    hide Search, NextDriver, Refuse;
  }

  lemma ExecuteConsumes(db: Db, ix: Index, cmd: Command)
    requires Sound(db, ix) && Joined(db) && ConsumedAll(db)
    ensures ConsumedAll(Execute(db, cmd).0)
  {
    hide Sound, Joined, ConsumedAll, Execute, Quiet, LogLater, OffersLater, Evolves;
    if (cmd.RejectTrip? || cmd.SweepTrip?) && Execute(db, cmd).1 != Declined(OfferIsExpired) {
      LoopCommandKeeps(db, ix, cmd);
    } else {
      var ix' := ExecuteKeeps(db, ix, cmd);
      match cmd {
      case StartTrip(_, _, _, _, _, _) => StartsQuiet(db, cmd);
      case StartDelivery(_, _, _, _, _, _) => StartsQuiet(db, cmd);
      case DriveTrip(_, _, _, _, _, _, _) => DrivesQuiet(db, cmd);
      case DriveDelivery(_, _, _, _, _, _) => DrivesQuiet(db, cmd);
      case CancelTrip(_, _, _, _) => CancelQuiet(db, cmd);
      case AcceptTrip(_, _, _, _, _) => AnswersQuiet(db, cmd);
      case AcceptDelivery(_, _, _, _) => AnswersQuiet(db, cmd);
      case SweepDelivery(_, _, _) => AnswersQuiet(db, cmd);
      case RejectTrip(_, _, _, _, _, _) => LateQuiet(db, cmd); SameQuiet(db.journal.log);
      case SweepTrip(_, _, _, _) => NeverLate(db, cmd);
      case _ => BooksQuiet(db, cmd);
      }
      EvolvesOffers(db, Execute(db, cmd).0, Subject(db, cmd), Hired(db, cmd));
      QuietKeeps(db, Execute(db, cmd).0);
    }
  }

  lemma NeverLate(db: Db, cmd: Command)
    requires Joined(db) && cmd.SweepTrip?
    ensures Execute(db, cmd).1 != Declined(OfferIsExpired)
  {
    hide Search, NextDriver, Lapse;
  }

  // ---- Whole runs

  lemma StepConsumes(db: Db, cmd: Command)
    requires Inv(db) && ConsumedAll(db)
    ensures ConsumedAll(Step(db, cmd))
  {
    hide Inv, Holds, Sound, Joined, Execute, ConsumedAll, FingerprintOf;
    var ix := Witness(db);
    ExecuteConsumes(db, ix, cmd);
    if KeyOf(cmd).None? || KeyOf(cmd).value !in db.receipts { SameConsumed(Execute(db, cmd).0, Step(db, cmd)); }
  }

  lemma SameConsumed(db: Db, db': Db)
    requires ConsumedAll(db) && db'.core == db.core && db'.journal == db.journal
    ensures ConsumedAll(db')
  {
    forall j | j in db'.journal.log ensures Consumed(db', j) { assert Consumed(db, j); }
  }

  lemma {:induction false} AfterConsumes(db: Db, cmds: seq<Command>)
    requires Inv(db) && ConsumedAll(db)
    ensures ConsumedAll(After(db, cmds))
    decreases |cmds|
  {
    hide Inv, ConsumedAll, Step;
    if cmds != [] {
      StepConsumes(db, cmds[0]);
      AfterConsumes(Step(db, cmds[0]), cmds[1..]);
    }
  }

  /**
   * In every reachable database each self-loop in an aggregate's log has an offer of its own: the one
   * that the logged Driver rejected, or one that expired.
   */
  lemma LoopsConsumeOffers(db: Db, j: Job) returns (offerOf: map<nat, Id>)
    requires Reachable(db) && j in db.journal.log
    ensures Consumes(db.journal.log[j], db.core.offers, j, offerOf)
  {
    hide Inv, ConsumedAll, Consumes, After;
    EmptyHolds();
    var cmds :| After(EmptyDb(), cmds) == db;
    EmptyConsumed();
    AfterConsumes(EmptyDb(), cmds);
    offerOf := Witnessed(db, j);
  }

  lemma EmptyConsumed()
    ensures ConsumedAll(EmptyDb())
  {
  }

  lemma Witnessed(db: Db, j: Job) returns (offerOf: map<nat, Id>)
    requires ConsumedAll(db) && j in db.journal.log
    ensures Consumes(db.journal.log[j], db.core.offers, j, offerOf)
  {
    assert Consumed(db, j);
    offerOf :| Consumes(db.journal.log[j], db.core.offers, j, offerOf);
  }
}
