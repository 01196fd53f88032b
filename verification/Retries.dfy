/**
 * How far the search of a matching Trip has come, between transactions: its version against the
 * number of its offers, and the versions at which an offer was announced as created.
 */
module Retries {
  import opened Basics
  import opened Tables
  import opened Events
  import opened Commitments
  import opened CommitmentSteps
  import opened Journals
  import opened Steps
  import opened History
  import R = Ranking
  import opened Queries
  import opened Commands
  import opened CommandProofs
  import opened MatchingSafety

  predicate AskedAt(version: nat, offers: nat, outbox: seq<Event>) {
    && 1 <= version <= offers
    && (version == 1 ==> offers == 1 && !Untold(outbox, 1, OfferCreated))
    && (version >= 2 && !Untold(outbox, version, OfferCreated) ==> offers == MAX_OFFER_ATTEMPTS)
  }

  ghost predicate AskedOf(c: Core, n: Journal, j: Job)
    requires j in c.jobs
  {
    j.Trip? && c.jobs[j].state.Matching? ==>
      j in n.outbox && AskedAt(c.jobs[j].version, MaxAttempt(c, j), n.outbox[j])
  }

  ghost predicate Asked(db: Db) {
    forall j {:trigger AskedOf(db.core, db.journal, j)} | j in db.core.jobs :: AskedOf(db.core, db.journal, j)
  }

  // ---- Counting offers

  lemma MaxIs(c: Core, j: Job, m: nat)
    requires forall o | o in OffersOf(c, j) :: c.offers[o].attempt <= m
    requires m == 0 || exists o :: o in OffersOf(c, j) && c.offers[o].attempt == m
    ensures MaxAttempt(c, j) == m
  {
    var k := MaxAttempt(c, j);
    if m > 0 {
      var o :| o in OffersOf(c, j) && c.offers[o].attempt == m;
    }
    if k > 0 {
      var o :| o in OffersOf(c, j) && c.offers[o].attempt == k;
    }
  }

  lemma SameCount(c: Core, c': Core, j: Job)
    requires OffersOf(c', j) == OffersOf(c, j)
    requires forall o | o in OffersOf(c, j) :: c'.offers[o].attempt == c.offers[o].attempt
    ensures MaxAttempt(c', j) == MaxAttempt(c, j)
  {
    var m := MaxAttempt(c, j);
    if m > 0 {
      var o :| o in OffersOf(c, j) && c.offers[o].attempt == m;
      assert o in OffersOf(c', j) && c'.offers[o].attempt == m;
    }
    MaxIs(c', j, m);
  }

  lemma OpenCount(c: Core, j: Job, d: Id, expiresAt: Time)
    requires d in c.work && c.nextId + 1 !in c.offers
    ensures MaxAttempt(OpenOffer(c, j, d, expiresAt, MaxAttempt(c, j) + 1), j) == MaxAttempt(c, j) + 1
  {
    var c' := OpenOffer(c, j, d, expiresAt, MaxAttempt(c, j) + 1);
    assert OffersOf(c', j) == OffersOf(c, j) + {c.nextId + 1};
    assert c'.offers[c.nextId + 1].attempt == MaxAttempt(c, j) + 1;
    MaxIs(c', j, MaxAttempt(c, j) + 1);
  }

  lemma AskedElsewhere(db: Db, db': Db, j: Job, hired: Option<Id>)
    requires Asked(db) && Evolves(db, db', j, hired) && db'.journal.outbox.Keys == db'.core.jobs.Keys
    requires j in db'.core.jobs ==> AskedOf(db'.core, db'.journal, j)
    ensures Asked(db')
  {
    forall i | i in db'.core.jobs ensures AskedOf(db'.core, db'.journal, i) {
      if i != j {
        assert AskedOf(db.core, db.journal, i);
        assert OffersOf(db'.core, i) == OffersOf(db.core, i);
        SameCount(db.core, db'.core, i);
      }
    }
  }

  // ---- The search ends where the announcement of an offer is due

  /** No event has been told at the aggregate's next version. */
  lemma NothingAhead(db: Db, ix: Index, j: Job, version: nat, kind: EventKind)
    requires Sound(db, ix) && j in db.core.jobs && db.core.jobs[j].version < version
    ensures Known(db, j) && Untold(db.journal.outbox[j], version, kind)
  {
    assert JournalOk(db.core, ix, db.journal, j);
  }

  /** After the search, an offer more and its announcement at the Trip's version. */
  lemma SearchAsked(
      db: Db, j: Job, excluded: Option<Id>, now: Time, found: seq<R.Candidate>, kind: EventKind, act: Act,
      actor: Option<Id>)
    requires Known(db, j) && j.Trip? && db.core.nextId + 1 !in db.core.offers
    requires Search(db, j, excluded, now, found, kind, act, actor).Some?
    ensures var c' := Search(db, j, excluded, now, found, kind, act, actor).value.0.core;
            var n' := Search(db, j, excluded, now, found, kind, act, actor).value.0.journal;
            && j in c'.jobs && j in n'.outbox
            && (!c'.jobs[j].state.NoDriverAvailable? ==>
                  && c'.jobs[j] == db.core.jobs[j]
                  && MaxAttempt(c', j) == MaxAttempt(db.core, j) + 1 <= MAX_OFFER_ATTEMPTS
                  && Untold(db.journal.outbox[j], db.core.jobs[j].version, kind)
                  && exists e: Event :: e.kind == kind && e.version == db.core.jobs[j].version && n'.outbox[j] == db.journal.outbox[j] + [e])
  {
    hide Untold, FirstClaim, Candidates, MaxAttempt, R.Rank;
    var next := NextDriver(db, j, excluded, found, kind);
    if next.Chosen? {
      OpenCount(db.core, j, next.driver, now + OFFER_TTL_MS);
      var e := Event(kind, db.core.jobs[j].version, None, {next.driver});
      var n' := Search(db, j, excluded, now, found, kind, act, actor).value.0.journal;
      assert n'.outbox[j] == db.journal.outbox[j] + [e];
    }
  }

  lemma UntoldThen(outbox: seq<Event>, e: Event, version: nat, kind: EventKind)
    ensures Untold(outbox + [e], version, kind) <==> Untold(outbox, version, kind) && !(e.version == version && e.kind == kind)
  {
    assert (outbox + [e])[|outbox|] == e;
    if Untold(outbox + [e], version, kind) {
      forall i | 0 <= i < |outbox| && outbox[i].version == version ensures outbox[i].kind != kind {
        assert (outbox + [e])[i] == outbox[i];
      }
    }
  }

  /** The first offer, or one more under start-matching. */
  lemma CreatedAsked(db: Db, j: Job, now: Time, found: seq<R.Candidate>)
    requires Known(db, j) && j.Trip? && db.core.nextId + 1 !in db.core.offers && db.core.jobs[j].state.Matching?
    requires var v, n := db.core.jobs[j].version, MaxAttempt(db.core, j);
             (v == 1 && n == 0) || AskedAt(v, n, db.journal.outbox[j])
    requires Search(db, j, None, now, found, OfferCreated, ExhaustMatching, None).Some?
    ensures var db' := Search(db, j, None, now, found, OfferCreated, ExhaustMatching, None).value.0;
            j in db'.core.jobs && AskedOf(db'.core, db'.journal, j)
  {
    SearchAsked(db, j, None, now, found, OfferCreated, ExhaustMatching, None);
    var db' := Search(db, j, None, now, found, OfferCreated, ExhaustMatching, None).value.0;
    var box, v := db.journal.outbox[j], db.core.jobs[j].version;
    hide Search, MaxAttempt, Untold;
    if db'.core.jobs[j].state.Matching? {
      var e: Event :| e.kind == OfferCreated && e.version == v && db'.journal.outbox[j] == box + [e];
      UntoldThen(box, e, v, OfferCreated);
    }
  }

  /** The next offer after one was rejected or swept. */
  lemma ReassignedAsked(
      db: Db, j: Job, excluded: Option<Id>, now: Time, found: seq<R.Candidate>, act: Act, actor: Option<Id>)
    requires Known(db, j) && j.Trip? && db.core.nextId + 1 !in db.core.offers && db.core.jobs[j].state.Matching?
    requires 2 <= db.core.jobs[j].version <= MaxAttempt(db.core, j) + 1
    requires Untold(db.journal.outbox[j], db.core.jobs[j].version, OfferCreated)
    requires Search(db, j, excluded, now, found, OfferReassigned, act, actor).Some?
    ensures var db' := Search(db, j, excluded, now, found, OfferReassigned, act, actor).value.0;
            j in db'.core.jobs && AskedOf(db'.core, db'.journal, j)
  {
    SearchAsked(db, j, excluded, now, found, OfferReassigned, act, actor);
    var db' := Search(db, j, excluded, now, found, OfferReassigned, act, actor).value.0;
    var box, v := db.journal.outbox[j], db.core.jobs[j].version;
    hide Search, MaxAttempt, Untold;
    if db'.core.jobs[j].state.Matching? {
      var e: Event :| e.kind == OfferReassigned && e.version == v && db'.journal.outbox[j] == box + [e];
      UntoldThen(box, e, v, OfferCreated);
    }
  }

  // ---- Commands

  lemma StartTripAsked(db: Db, ix: Index, customer: Id, id: Id, now: Time, found: seq<R.Candidate>)
    requires Sound(db, ix) && Joined(db) && Asked(db)
    ensures var db', j := DoStartTrip(db, customer, id, now, found).0, Trip(id);
            j in db'.core.jobs ==> AskedOf(db'.core, db'.journal, j)
  {
    hide Sound, Joined, Evolves, AskedAt, MaxAttempt, PendingOffer, Search, NextDriver, BeginMatching;
    var j := Trip(id);
    if j in db.core.jobs {
      assert AskedOf(db.core, db.journal, j);
      if db.core.jobs[j].customer == customer && (db.core.jobs[j].state.Requested? || db.core.jobs[j].state.Matching?) {
        StartedTrip(db, ix, j);
        var db1 := StartedTripDb(db, j);
        PendingInSound(db1, ix, j);
        SoundFresh(db, ix);
        if db.core.jobs[j].state.Requested? { StartedCount(db, ix, j); }
        if PendingOffer(db1.core, j).Some? {
        } else if Search(db1, j, None, now, found, OfferCreated, ExhaustMatching, None).Some? {
          CreatedAsked(db1, j, now, found);
        }
      }
    }
  }

  lemma StartedCount(db: Db, ix: Index, j: Job)
    requires Sound(db, ix) && j in db.core.jobs && Known(db, j) && j.Trip?
    requires db.core.jobs[j].state.Requested?
    ensures var db1 := BeginMatching(db, j, None);
            && db1.core.jobs[j].version == 1 && MaxAttempt(db1.core, j) == 0
            && db1.core.nextId + 1 !in db1.core.offers && !HasPending(db1.core, ix, j)
  {
    assert JobOk(db.core, ix, j);
    AttemptCount(db.core, ix, j);
    SameCount(db.core, BeginMatching(db, j, None).core, j);
  }

  lemma SoundFresh(db: Db, ix: Index)
    requires Sound(db, ix)
    ensures db.core.nextId + 1 !in db.core.offers
  {
  }

  /** After an offer is resolved and the Trip's version grown, the count is as before. */
  lemma SpentCount(db: Db, ix: Index, o: Id, db1: Db)
    requires Sound(db, ix) && Asked(db)
    requires o in db.core.offers && db.core.offers[o].status.Pending? && db.core.offers[o].job.Trip? && OfferRows(db.core, o)
    requires Known(db, db.core.offers[o].job)
    requires db1 == Refuse(db, o) || db1 == Lapse(db, o)
    ensures var j := db.core.offers[o].job;
            && Known(db1, j) && db1.core.nextId + 1 !in db1.core.offers && db1.core.jobs[j].state.Matching?
            && 2 <= db1.core.jobs[j].version <= MaxAttempt(db1.core, j) + 1
            && Untold(db1.journal.outbox[j], db1.core.jobs[j].version, OfferCreated)
  {
    hide Sound, Untold, MaxAttempt;
    var j := db.core.offers[o].job;
    PendingRows(db, ix, o);
    assert AskedOf(db.core, db.journal, j);
    NothingAhead(db, ix, j, db.core.jobs[j].version + 1, OfferCreated);
    SoundFresh(db, ix);
    SameCount(db.core, db1.core, j);
    var kind := if db1 == Refuse(db, o) then OfferRejected else OfferExpired;
    var e := Event(kind, db.core.jobs[j].version + 1, None, {db.core.offers[o].driver});
    assert db1.journal.outbox[j] == db.journal.outbox[j] + [e];
    UntoldThen(db.journal.outbox[j], e, db.core.jobs[j].version + 1, OfferCreated);
  }

  lemma ExpireAsked(db: Db, o: Id)
    requires Asked(db) && OfferRows(db.core, o) && db.core.offers[o].job in db.core.jobs
    ensures AskedOf(Expire(db, o).core, Expire(db, o).journal, db.core.offers[o].job)
  {
    var j := db.core.offers[o].job;
    assert AskedOf(db.core, db.journal, j);
    SameCount(db.core, Expire(db, o).core, j);
    hide MaxAttempt, AskedAt;
  }

  lemma AcceptTripAsked(db: Db, ix: Index, d: Id, o: Id, key: Id, now: Time)
    requires Sound(db, ix) && Joined(db) && Asked(db)
    ensures var db', j := DoAcceptTrip(db, d, o, key, now).0, JobOf(db.core, o);
            j in db'.core.jobs ==> AskedOf(db'.core, db'.journal, j)
  {
    hide Sound, AskedAt, MaxAttempt, Expire;
    if DoAcceptTrip(db, d, o, key, now).1 == Declined(OfferIsExpired) {
      ExpireAsked(db, o);
    } else if JobOf(db.core, o) in db.core.jobs {
      assert AskedOf(db.core, db.journal, JobOf(db.core, o));
    }
  }

  lemma RejectTripAsked(db: Db, ix: Index, d: Id, o: Id, now: Time, found: seq<R.Candidate>)
    requires Sound(db, ix) && Joined(db) && Asked(db)
    ensures var db', j := DoRejectTrip(db, d, o, now, found).0, JobOf(db.core, o);
            j in db'.core.jobs ==> AskedOf(db'.core, db'.journal, j)
  {
    hide Sound, AskedAt, MaxAttempt, Expire, Refuse, Search, NextDriver;
    if DoRejectTrip(db, d, o, now, found).1.Ok? {
      PendingRows(db, ix, o);
      SpentCount(db, ix, o, Refuse(db, o));
      ReassignedAsked(Refuse(db, o), db.core.offers[o].job, Some(d), now, found, ExhaustAfterReject, Some(d));
    } else if DoRejectTrip(db, d, o, now, found).1 == Declined(OfferIsExpired) {
      ExpireAsked(db, o);
    } else if JobOf(db.core, o) in db.core.jobs {
      assert AskedOf(db.core, db.journal, JobOf(db.core, o));
    }
  }

  lemma SweepTripAsked(db: Db, ix: Index, o: Id, locked: bool, now: Time, found: seq<R.Candidate>)
    requires Sound(db, ix) && Joined(db) && Asked(db)
    ensures var db', j := DoSweepTrip(db, o, locked, now, found).0, JobOf(db.core, o);
            j in db'.core.jobs ==> AskedOf(db'.core, db'.journal, j)
  {
    hide Sound, AskedAt, MaxAttempt, Lapse, Search, NextDriver;
    if DoSweepTrip(db, o, locked, now, found).1 == Ok(SweepResponse(true)) {
      PendingRows(db, ix, o);
      SpentCount(db, ix, o, Lapse(db, o));
      var d := db.core.offers[o].driver;
      ReassignedAsked(Lapse(db, o), db.core.offers[o].job, Some(d), now, found, ExpireNoReassignment, None);
    } else if JobOf(db.core, o) in db.core.jobs {
      assert AskedOf(db.core, db.journal, JobOf(db.core, o));
    }
  }

  /** A rejection or a sweep never announces an offer twice at one version. */
  lemma NoClash(db: Db, ix: Index, o: Id, db1: Db, excluded: Option<Id>, found: seq<R.Candidate>)
    requires Sound(db, ix)
    requires o in db.core.offers && db.core.offers[o].status.Pending? && db.core.offers[o].job.Trip? && OfferRows(db.core, o)
    requires Known(db, db.core.offers[o].job)
    requires db1 == Refuse(db, o) || db1 == Lapse(db, o)
    ensures Known(db1, db.core.offers[o].job)
    ensures !NextDriver(db1, db.core.offers[o].job, excluded, found, OfferReassigned).Clash?
  {
    hide Untold, MaxAttempt, Candidates, FirstClaim, Sound, R.Rank;
    var j := db.core.offers[o].job;
    NothingAhead(db, ix, j, db.core.jobs[j].version + 1, OfferReassigned);
    var kind := if db1 == Refuse(db, o) then OfferRejected else OfferExpired;
    var e := Event(kind, db.core.jobs[j].version + 1, None, {db.core.offers[o].driver});
    assert db1.journal.outbox[j] == db.journal.outbox[j] + [e];
    UntoldThen(db.journal.outbox[j], e, db.core.jobs[j].version + 1, OfferReassigned);
  }
}
