/** Every transaction keeps the invariant of matching, journal and settlement. */
module CommandProofs {
  import opened Basics
  import opened Fare
  import opened Tables
  import opened Events
  import opened Commitments
  import opened CommitmentSteps
  import opened Journals
  import opened Settlement
  import opened Steps
  import opened History
  import R = Ranking
  import opened Queries
  import opened Commands

  // ---- What the queries find in a sound database

  lemma SoundJoined(db: Db, ix: Index)
    requires Sound(db, ix)
    ensures Joined(db)
  {
    forall j | j in db.core.jobs ensures Known(db, j) && (j.Trip? ==> db.core.jobs[j].ride.Ride?) {
      assert RideOk(db.core, db.books, ix, j);
    }
    forall o | o in db.core.offers ensures OfferRows(db.core, o) && db.core.offers[o].job in db.core.jobs {
      assert OfferOk(db.core, ix, o);
    }
    forall a | a in db.core.assignments ensures AssignmentRows(db.core, a) {
      assert AssignmentOk(db.core, ix, a);
    }
  }

  /** MAX(attempt_number) is the number of offers. */
  lemma AttemptCount(c: Core, ix: Index, j: Job)
    requires Linked(c, ix) && j in c.jobs
    ensures j in ix.trail && MaxAttempt(c, j) == |ix.trail[j]|
  {
    assert JobOk(c, ix, j);
    var m := MaxAttempt(c, j);
    if |ix.trail[j]| > 0 {
      assert Last(ix.trail[j]) in OffersOf(c, j);
    }
    if m > 0 {
      var o :| o in OffersOf(c, j) && c.offers[o].attempt == m;
      assert OfferOk(c, ix, o);
    }
  }

  /** The pending offer a query finds is the newest offer. */
  lemma PendingIsLast(c: Core, ix: Index, j: Job)
    requires Linked(c, ix) && j in c.jobs
    ensures PendingOffer(c, j).Some? <==> HasPending(c, ix, j)
    ensures HasPending(c, ix, j) ==> PendingOffer(c, j) == Some(Last(ix.trail[j])) && c.offers[Last(ix.trail[j])].job == j
  {
    assert JobOk(c, ix, j);
    forall o | o in PendingOffers(c, j) ensures HasPending(c, ix, j) && o == Last(ix.trail[j]) {
      PendingFacts(c, ix, o);
    }
    if HasPending(c, ix, j) { assert Last(ix.trail[j]) in PendingOffers(c, j); }
  }

  lemma CandidatesClaimable(c: Core, j: Job, excluded: Option<Id>, found: seq<R.Candidate>)
    ensures forall x | x in Candidates(c, j, excluded, found) :: Claimable(c, j, excluded, x.driver)
  {
  }

  lemma FirstClaimIn(rows: seq<R.Candidate>)
    requires FirstClaim(rows).Some?
    ensures exists x :: x in rows && x.driver == FirstClaim(rows).value
  {
    if !rows[0].conflict {
      assert rows[0] in rows;
    } else {
      FirstClaimIn(rows[1..]);
      var x :| x in rows[1..] && x.driver == FirstClaim(rows).value;
      assert x in rows;
    }
  }

  /** Whoever is chosen satisfies the WHERE clauses of the candidate query. */
  lemma ChosenIsClaimable(db: Db, j: Job, excluded: Option<Id>, found: seq<R.Candidate>, kind: EventKind)
    requires Known(db, j) && NextDriver(db, j, excluded, found, kind).Chosen?
    ensures Claimable(db.core, j, excluded, NextDriver(db, j, excluded, found, kind).driver)
  {
    var rows := Candidates(db.core, j, excluded, found);
    var ranked := R.Rank(rows, R.LOCATION_FRESHNESS_SECONDS);
    R.RankIsSortedSelection(rows, R.LOCATION_FRESHNESS_SECONDS);
    FirstClaimIn(ranked.value);
    var x :| x in ranked.value && x.driver == FirstClaim(ranked.value).value;
    assert x in multiset(ranked.value);
    assert multiset(rows)[x] > 0;
    CandidatesClaimable(db.core, j, excluded, found);
  }

  // ---- The search for a Driver

  /** Nobody is asked about the aggregate at present. */
  ghost predicate Searching(db: Db, ix: Index, j: Job) {
    Sound(db, ix) && Known(db, j) && db.core.jobs[j].state.Matching? && !HasPending(db.core, ix, j)
  }

  predicate Exhausting(j: Job, act: Act) {
    act.ExhaustMatching? || act.ExpireNoReassignment? || (j.Trip? && act.ExhaustAfterReject?)
  }

  lemma ExhaustKeeps(db: Db, ix: Index, j: Job, act: Act, actor: Option<Id>)
    requires Searching(db, ix, j) && Exhausting(j, act)
    ensures Sound(Exhaust(db, j, act, actor), ix) && Evolves(db, Exhaust(db, j, act, actor), j, None)
  {
    hide Linked, Logged, Settled, HasPending, Evolves;
    AdvanceEvolves(db, j, NoDriverAvailable, act, actor, NoDriverEvent, Some(NoDriverAvailable), {});
    AdvanceKeeps(db, ix, j, NoDriverAvailable, act, actor, NoDriverEvent, Some(NoDriverAvailable), {});
  }

  lemma FreshIds(c: Core, ix: Index)
    requires Linked(c, ix)
    ensures c.nextId !in c.reservations && c.nextId !in c.assignments && c.nextId !in c.proofs
    ensures c.nextId !in c.offers && c.nextId + 1 !in c.offers
    ensures Trip(c.nextId) !in c.jobs && Delivery(c.nextId) !in c.jobs
  {
  }

  lemma OfferNextKeeps(db: Db, ix: Index, j: Job, d: Id, now: Time, attempt: nat, kind: EventKind)
    requires Searching(db, ix, j) && CanOpen(db.core, ix, j, d, attempt) && !TerminalKind(kind)
    requires j.Trip? ==> Untold(db.journal.outbox[j], db.core.jobs[j].version, kind)
    ensures var db' := OfferNext(db, j, d, now, attempt, kind);
            Sound(db', OpenIndex(db.core, ix, j)) && Evolves(db, db', j, None)
  {
    FreshIds(db.core, ix);
    hide Linked, Logged, Settled, HasPending, Evolves, Untold, TerminalKind;
    ProposeEvolves(db, j, d, now + OFFER_TTL_MS, attempt, kind);
    ProposeKeeps(db, ix, j, d, now + OFFER_TTL_MS, attempt, kind);
  }

  lemma ChosenCanOpen(db: Db, ix: Index, j: Job, excluded: Option<Id>, found: seq<R.Candidate>, kind: EventKind)
    requires Searching(db, ix, j) && j.Trip? && NextDriver(db, j, excluded, found, kind).Chosen?
    ensures var d := NextDriver(db, j, excluded, found, kind).driver;
            && d in db.core.work && j in ix.trail && CanOpen(db.core, ix, j, d, MaxAttempt(db.core, j) + 1)
            && Untold(db.journal.outbox[j], db.core.jobs[j].version, kind)
  {
    AttemptCount(db.core, ix, j);
    ChosenIsClaimable(db, j, excluded, found, kind);
  }

  lemma SearchKeeps(
      db: Db, ix: Index, j: Job, excluded: Option<Id>, now: Time, found: seq<R.Candidate>, kind: EventKind,
      act: Act, actor: Option<Id>)
    returns (ix': Index)
    requires Searching(db, ix, j) && j.Trip? && Exhausting(j, act) && !TerminalKind(kind)
    requires Search(db, j, excluded, now, found, kind, act, actor).Some?
    ensures var db' := Search(db, j, excluded, now, found, kind, act, actor).value.0;
            Sound(db', ix') && Evolves(db, db', j, None)
  {
    hide Sound, HasPending, Evolves, Untold, TerminalKind, Exhausting, CanOpen, MaxAttempt;
    var next := NextDriver(db, j, excluded, found, kind);
    ix' := ix;
    if next.Nobody? {
      ExhaustKeeps(db, ix, j, act, actor);
    } else {
      ChosenCanOpen(db, ix, j, excluded, found, kind);
      ix' := OpenIndex(db.core, ix, j);
      OfferNextKeeps(db, ix, j, next.driver, now, MaxAttempt(db.core, j) + 1, kind);
    }
  }

  lemma BeginMatchingKeeps(db: Db, ix: Index, j: Job, actor: Option<Id>)
    requires Sound(db, ix) && Known(db, j) && db.core.jobs[j].state.Requested?
    ensures Searching(BeginMatching(db, j, actor), ix, j) && Evolves(db, BeginMatching(db, j, actor), j, None)
  {
    hide Linked, Logged, Settled, Evolves;
    JobStands(db.core, ix, j);
    AdvanceEvolves(db, j, Matching, StartMatching, actor, MatchingStarted, Some(Matching), {});
    AdvanceKeeps(db, ix, j, Matching, StartMatching, actor, MatchingStarted, Some(Matching), {});
  }

  // ---- A pending offer ends

  /** A pending offer, with the rows it names. */
  lemma PendingRows(db: Db, ix: Index, o: Id)
    requires Sound(db, ix) && o in db.core.offers && db.core.offers[o].status.Pending?
    ensures OfferRows(db.core, o)
    ensures var f := db.core.offers[o];
            && Known(db, f.job) && db.core.jobs[f.job].state.Matching?
            && db.core.reservations[f.reservation].status.Active?
  {
    PendingFacts(db.core, ix, o);
  }

  lemma ShutKeeps(db: Db, ix: Index, o: Id, status: OfferStatus, released: ReservationStatus)
    requires Sound(db, ix) && CanShut(db.core, ix, o, status, released)
    ensures var db', j := Drop(db, o, status, released), db.core.offers[o].job;
            && Searching(db', ix, j) && Evolves(db, db', j, None)
            && j in ix.trail && (j.Trip? ==> db'.core.jobs[j].version <= |ix.trail[j]|)
  {
    PendingRows(db, ix, o);
    hide Linked, Logged, Settled, HasPending, Evolves;
    DropEvolves(db, o, status, released);
    DropKeeps(db, ix, o, status, released);
  }

  lemma ExpireKeeps(db: Db, ix: Index, o: Id)
    requires Sound(db, ix) && o in db.core.offers && db.core.offers[o].status.Pending?
    ensures OfferRows(db.core, o)
    ensures var db', j := Expire(db, o), db.core.offers[o].job;
            Searching(db', ix, j) && Evolves(db, db', j, None)
  {
    PendingRows(db, ix, o);
    hide Linked, Logged, Settled, HasPending, Evolves;
    ShutKeeps(db, ix, o, Expired, Lapsed);
  }

  /** The self-loop of a Trip: its resolved offer is spent on one version. */
  lemma SelfLoopKeeps(db: Db, ix: Index, j: Job, act: Act, actor: Option<Id>, kind: EventKind, drivers: set<Id>)
    requires Searching(db, ix, j) && j.Trip? && j in ix.trail && db.core.jobs[j].version <= |ix.trail[j]|
    requires act.RejectOffer? || act.ExpireOffer?
    requires !TerminalKind(kind)
    ensures var db' := Advance(db, j, Matching, act, actor, kind, None, drivers);
            Searching(db', ix, j) && Evolves(db, db', j, None)
  {
    hide Linked, Logged, Settled, Evolves;
    AdvanceEvolves(db, j, Matching, act, actor, kind, None, drivers);
    hide TerminalKind;
    AdvanceKeeps(db, ix, j, Matching, act, actor, kind, None, drivers);
  }

  lemma RefuseKeeps(db: Db, ix: Index, o: Id)
    requires Sound(db, ix) && o in db.core.offers && db.core.offers[o].status.Pending? && db.core.offers[o].job.Trip?
    ensures OfferRows(db.core, o) && Known(db, db.core.offers[o].job)
    ensures Searching(Refuse(db, o), ix, db.core.offers[o].job)
    ensures Evolves(db, Refuse(db, o), db.core.offers[o].job, None)
  {
    PendingRows(db, ix, o);
    ShutKeeps(db, ix, o, Rejected, Released);
    hide Sound, HasPending, Evolves;
    var f, db1 := db.core.offers[o], Drop(db, o, Rejected, Released);
    SelfLoopKeeps(db1, ix, f.job, RejectOffer, Some(f.driver), OfferRejected, {f.driver});
    EvolvesChain(db, db1, Refuse(db, o), f.job, None);
  }

  lemma LapseKeeps(db: Db, ix: Index, o: Id)
    requires Sound(db, ix) && o in db.core.offers && db.core.offers[o].status.Pending? && db.core.offers[o].job.Trip?
    ensures OfferRows(db.core, o) && Known(db, db.core.offers[o].job)
    ensures Searching(Lapse(db, o), ix, db.core.offers[o].job)
    ensures Evolves(db, Lapse(db, o), db.core.offers[o].job, None)
  {
    hide HasPending, Evolves;
    PendingRows(db, ix, o);
    ShutKeeps(db, ix, o, Expired, Lapsed);
    hide Sound;
    var f, db1 := db.core.offers[o], Expire(db, o);
    SelfLoopKeeps(db1, ix, f.job, ExpireOffer, None, OfferExpired, {f.driver});
    EvolvesChain(db, db1, Lapse(db, o), f.job, None);
  }
}
