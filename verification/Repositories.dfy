/**
 * The repositories' transactions, statement by statement. A transaction works on its own copy of
 * the tables and commits by assigning it back; an exception returns without doing so. Each is
 * proved to compute what Commands says of it, so in a sound database no guard in the middle of a
 * transaction ever fails and no loop over pending offers or candidates goes wrong.
 */
module Repositories {
  import opened Basics
  import opened Fare
  import opened Tables
  import opened Events
  import opened Commitments
  import opened CommitmentSteps
  import opened Journals
  import opened Settlement
  import opened Steps
  import R = Ranking
  import Lifecycle
  import opened Queries
  import opened Commands
  import opened CommandProofs
  import opened MatchingSafety
  import opened Retries
  import opened Statements
  import opened Runs

  class Database {
    var tables: Db

    constructor ()
      ensures tables == EmptyDb() && Inv(tables)
    {
      tables := EmptyDb();
      EmptyHolds();
    }
  }

  /** What Commands says of a command. */
  ghost function Applied(db: Db, cmd: Command): (Db, Outcome)
    requires Inv(db)
  {
    InvJoined(db);
    Apply(db, cmd)
  }

  /** SELECT COALESCE(MAX(attempt_number), 0) + 1 */
  method NextAttempt(c: Core, j: Job) returns (attempt: nat)
    ensures attempt == MaxAttempt(c, j) + 1
  {
    var attempts := {0} + set o | o in OffersOf(c, j) :: c.offers[o].attempt;
    HasMax(attempts);
    var m :| m in attempts && forall n | n in attempts :: n <= m;
    forall o | o in OffersOf(c, j) ensures c.offers[o].attempt <= m { assert c.offers[o].attempt in attempts; }
    MaxIs(c, j, m);
    return m + 1;
  }

  lemma {:induction false} HasMax(s: set<nat>)
    requires s != {}
    ensures exists m :: m in s && forall n | n in s :: n <= m
    decreases s
  {
    var x :| x in s;
    if s != {x} {
      HasMax(s - {x});
      var m :| m in s - {x} && forall n | n in s - {x} :: n <= m;
      var top := if m < x then x else m;
      forall n | n in s ensures n <= top { assert n == x || n in s - {x}; }
      assert top in s;
    }
  }

  datatype Next = Aborted(code: Code) | Exhausted | Offered(offer: Id)

  /** What a search for a Driver comes to. */
  ghost predicate Searched(t: Db, j: Job, excluded: Option<Id>, now: Time, found: seq<R.Candidate>, kind: EventKind, t': Db, next: Next)
    requires Known(t, j)
  {
    match NextDriver(t, j, excluded, found, kind)
    case RankingFails => next == Aborted(RankingInvalid)
    case Clash => next == Aborted(UniqueViolation)
    case Nobody => next == Exhausted && t' == t
    case Chosen(d) =>
      && d in t.core.work && next == Offered(t.core.nextId + 1)
      && t' == OfferNext(t, j, d, now, MaxAttempt(t.core, j) + 1, kind)
  }

  /** reserveNextOffer */
  method ReserveNextOffer(
      t: Db, j: Job, excluded: Option<Id>, now: Time, found: seq<R.Candidate>, kind: EventKind, ghost ix: Index)
    returns (t': Db, next: Next)
    requires Searching(t, ix, j) && j.Trip?
    ensures Searched(t, j, excluded, now, found, kind, t', next)
  {
    hide Sound, HasPending, Untold, Candidates, MaxAttempt, R.Rank;
    hide InsertReservation, ClaimWork, InsertOffer, OfferNext, ResolveReservation, AppendOutbox, FirstClaim;
    t' := t;
    var attempt := NextAttempt(t.core, j);
    if attempt > MAX_OFFER_ATTEMPTS { return t, Exhausted; }
    var ranked := R.Rank(Candidates(t.core, j, excluded, found), R.LOCATION_FRESHNESS_SECONDS);
    if ranked.None? { return t, Aborted(RankingInvalid); }
    var rows := ranked.value;
    RowsClaimable(t.core, j, excluded, found);
    var i := 0;
    assert rows[0..] == rows;
    while i < |rows|
      invariant 0 <= i <= |rows| && t' == t
      invariant FirstClaim(rows[i..]) == FirstClaim(rows)
    {
      var row := rows[i];
      ClaimFrom(rows, i);
      i := i + 1;
      if row.conflict { continue; }
      var expiresAt := now + OFFER_TTL_MS;
      OfferedIs(t, ix, j, row.driver, now, attempt, kind);
      var r := t'.core.nextId;
      var c := InsertReservation(t'.core, j, row.driver, expiresAt);
      var claimed := ClaimWork(c, row.driver, j);
      if claimed.1 != 1 {
        t' := t'.(core := ResolveReservation(c, r, Released));
        continue;
      }
      var o := claimed.0.nextId;
      c := InsertOffer(claimed.0, j, r, row.driver, attempt, expiresAt);
      var e := Event(kind, t'.core.jobs[j].version, None, {row.driver});
      if !Untold(t'.journal.outbox[j], e.version, kind) { return t', Aborted(UniqueViolation); }
      t' := t'.(core := c, journal := AppendOutbox(t'.journal, j, e));
      return t', Offered(o);
    }
    ClaimFrom(rows, i);
    return t', Exhausted;
  }

  lemma ClaimFrom(rows: seq<R.Candidate>, i: nat)
    requires i <= |rows|
    ensures FirstClaim(rows[i..]) ==
            if i == |rows| then None else if rows[i].conflict then FirstClaim(rows[i + 1..]) else Some(rows[i].driver)
  {
    if i < |rows| { assert rows[i..][0] == rows[i] && rows[i..][1..] == rows[i + 1..]; }
  }

  /** Reservation, claim, offer and announcement for a Driver who is available. */
  lemma OfferedIs(t: Db, ix: Index, j: Job, d: Id, now: Time, attempt: nat, kind: EventKind)
    requires Sound(t, ix) && Known(t, j) && j.Trip? && d in t.core.work && t.core.work[d].state.Available?
    ensures var expiresAt := now + OFFER_TTL_MS;
            var claimed := ClaimWork(InsertReservation(t.core, j, d, expiresAt), d, j);
            && claimed.1 == 1 && claimed.0.nextId == t.core.nextId + 1
            && t.(core := InsertOffer(claimed.0, j, t.core.nextId, d, attempt, expiresAt),
                  journal := AppendOutbox(t.journal, j, Event(kind, t.core.jobs[j].version, None, {d})))
                 == OfferNext(t, j, d, now, attempt, kind)
  {
    OpenIs(t.core, ix, j, d, now + OFFER_TTL_MS, attempt);
  }

  /** The search as every caller of reserveNextOffer continues it: nobody found, the match is exhausted. */
  method ReserveOrExhaust(
      t: Db, j: Job, excluded: Option<Id>, now: Time, found: seq<R.Candidate>, kind: EventKind, act: Act,
      actor: Option<Id>, ghost ix: Index)
    returns (t': Db, aborted: Option<Code>, offer: Option<Id>)
    requires Searching(t, ix, j) && j.Trip?
    ensures var searched := Search(t, j, excluded, now, found, kind, act, actor);
            if searched.None? then aborted == Some(Failure(NextDriver(t, j, excluded, found, kind)))
            else aborted == None && (t', offer) == searched.value
  {
    hide Sound, HasPending, NextDriver, MaxAttempt, OfferNext, Exhaust;
    var next;
    t', next := ReserveNextOffer(t, j, excluded, now, found, kind, ix);
    match next
    case Aborted(code) => return t, Some(code), None;
    case Offered(o) => return t', None, Some(o);
    case Exhausted =>
      ExhaustedIs(t', ix, j, act, actor);
      var version := t'.core.jobs[j].version;
      var c := MoveJob(t'.core, j, Matching, version, NoDriverAvailable).0;
      var n := AppendTransition(t'.journal, j, Transition(act, actor, Some(Matching), NoDriverAvailable,
                                                          Some(version), version + 1));
      n := AppendOutbox(n, j, Event(NoDriverEvent, version + 1, Some(NoDriverAvailable), {}));
      return t'.(core := c, journal := n), None, None;
  }

  lemma RowsClaimable(c: Core, j: Job, excluded: Option<Id>, found: seq<R.Candidate>)
    requires R.Rank(Candidates(c, j, excluded, found), R.LOCATION_FRESHNESS_SECONDS).Some?
    ensures forall x | x in R.Rank(Candidates(c, j, excluded, found), R.LOCATION_FRESHNESS_SECONDS).value ::
              x.driver in c.work && c.work[x.driver].state.Available?
  {
    var rows := Candidates(c, j, excluded, found);
    var ranked := R.Rank(rows, R.LOCATION_FRESHNESS_SECONDS).value;
    R.RankIsSortedSelection(rows, R.LOCATION_FRESHNESS_SECONDS);
    CandidatesClaimable(c, j, excluded, found);
    forall x | x in ranked ensures x.driver in c.work && c.work[x.driver].state.Available? {
      assert x in multiset(ranked);
      assert multiset(rows)[x] > 0;
    }
  }

  /** A command with a key is answered from its receipt, or runs and records one; the invariant is kept. */
  lemma Keyed(db: Db, cmd: Command) returns (ix: Index)
    requires Inv(db) && KeyOf(cmd).Some?
    ensures Holds(db, ix) && Sound(db, ix) && Joined(db) && Inv(Applied(db, cmd).0)
    ensures Applied(db, cmd) ==
            if KeyOf(cmd).value in db.receipts then (db, Replayed(db.receipts[KeyOf(cmd).value], FingerprintOf(cmd)))
            else Recorded(Execute(db, cmd), KeyOf(cmd), FingerprintOf(cmd))
  {
    ix :| Holds(db, ix);
    InvJoined(db);
    ApplyKeeps(db, cmd);
  }

  /** A command without a key just runs. */
  lemma Unkeyed(db: Db, cmd: Command) returns (ix: Index)
    requires Inv(db) && KeyOf(cmd).None?
    ensures Holds(db, ix) && Sound(db, ix) && Joined(db) && Inv(Applied(db, cmd).0)
    ensures Applied(db, cmd) == Execute(db, cmd)
  {
    ix :| Holds(db, ix);
    InvJoined(db);
    ApplyKeeps(db, cmd);
  }

  /** REQUESTED to MATCHING, when the Trip is not yet there. */
  method StartSearch(t: Db, j: Job) returns (t': Db)
    requires Known(t, j) && (t.core.jobs[j].state.Requested? || t.core.jobs[j].state.Matching?)
    ensures t' == StartedTripDb(t, j)
  {
    if t.core.jobs[j].state.Matching? { return t; }
    var version := t.core.jobs[j].version;
    var c := MoveJob(t.core, j, Requested, version, Matching).0;
    var n := AppendTransition(t.journal, j, Transition(Act.StartMatching, None, Some(Requested), Matching,
                                                       Some(version), version + 1));
    n := AppendOutbox(n, j, Event(MatchingStarted, version + 1, Some(Matching), {}));
    return t.(core := c, journal := n);
  }

  /** expireOffer */
  method ExpirePending(t: Db, o: Id, ghost ix: Index) returns (t': Db)
    requires Sound(t, ix) && o in t.core.offers && t.core.offers[o].status.Pending?
    ensures OfferRows(t.core, o) && t' == Expire(t, o)
  {
    var f := t.core.offers[o];
    ExpireIs(t.core, ix, o);
    var c := ResolveOffer(t.core, o, Expired);
    c := ExpireReservations(c, f.job, f.driver);
    c := FreeWork(c, f.driver, f.job, Reserved).0;
    return t.(core := c);
  }

  class DispatchRepository {
    const database: Database

    constructor (database: Database)
      ensures this.database == database
    {
      this.database := database;
    }

    /** setWorkState */
    method SetWorkState(driver: Id, available: bool, eligible: bool) returns (r: Outcome)
      requires Inv(database.tables)
      modifies database
      ensures Inv(database.tables)
      ensures (database.tables, r) == Applied(old(database.tables), SetWork(driver, available, eligible))
    {
      hide Inv, Holds, Joined, Applied;
      var t := database.tables;
      ghost var _ := Unkeyed(t, SetWork(driver, available, eligible));
      if available && !eligible { return Thrown(DriverNotEligible); }
      var state := if available then Available else Offline;
      if driver in t.core.work {
        var w := t.core.work[driver];
        if !w.state.Offline? && !w.state.Available? { return Thrown(WorkStateConflict); }
        t := t.(core := t.core.(work := t.core.work[driver := Work(state, None, w.delivery, w.version + 1)]));
      } else {
        t := t.(core := t.core.(work := t.core.work[driver := Work(state, None, None, 0)]));
      }
      database.tables := t;
      r := Ok(WorkResponse(driver, t.core.work[driver].state, t.core.work[driver].version));
    }

    /** acceptOffer */
    method AcceptOffer(driver: Id, o: Id, key: Id, fingerprint: Id, now: Time) returns (r: Outcome)
      requires Inv(database.tables)
      modifies database
      ensures Inv(database.tables)
      ensures (database.tables, r) == Applied(old(database.tables), AcceptTrip(driver, o, key, fingerprint, now))
    {
      hide Inv, Holds, Joined, Sound, Receipted, Waiting, Asked, Hire, Expire, Applied;
      hide Statements.AcceptOffer, ResolveReservation, BindWork, InsertAssignment, MoveJob, AppendTransition, AppendOutbox;
      var t := database.tables;
      ghost var cmd := AcceptTrip(driver, o, key, fingerprint, now);
      ghost var ix := Keyed(t, cmd);
      var k := ReceiptKey(driver, AcceptTripOp, key);
      if k in t.receipts { return Replayed(t.receipts[k], fingerprint); }
      if o !in t.core.offers || !t.core.offers[o].job.Trip? { return Thrown(OfferNotFound); }
      var f := t.core.offers[o];
      OfferJoined(t, o);
      var view := ViewOf(t.core, o);
      if f.driver != driver { return Thrown(OfferNotForDriver); }
      if f.status.Accepted? {
        if f.acceptedKey == Some(key) { AcceptedKeyHasReceipt(t, ix, o); return Ok(OfferResponse(view)); }
        return Declined(OfferAlreadyResolved);
      }
      if !f.status.Pending? { return Declined(OfferAlreadyResolved); }
      ReservedAlike(t, ix, o);
      var reservation := t.core.reservations[f.reservation];
      if !reservation.status.Active? { return Declined(OfferAlreadyResolved); }
      if reservation.expiresAt <= now || f.expiresAt <= now {
        t := ExpirePending(t, o, ix);
        database.tables := t;
        return Declined(OfferIsExpired);
      }
      var row := t.core.jobs[f.job];
      if !row.state.Matching? { return Declined(OfferAlreadyResolved); }
      HiredIs(t, ix, o, key, now);
      var c := Statements.AcceptOffer(t.core, o, key, now);
      c := ResolveReservation(c, f.reservation, Committed);
      var bound := BindWork(c, driver, f.job, Reserved, ToPickup);
      if bound.1 != 1 { return Thrown(WorkStateConflict); }
      c := InsertAssignment(bound.0, f.job, o, driver);
      c := MoveJob(c, f.job, Matching, row.version, DriverToPickup).0;
      var n := AppendTransition(t.journal, f.job, Transition(AssignDriver, Some(driver), Some(Matching), DriverToPickup,
                                                             Some(row.version), row.version + 1));
      n := AppendOutbox(n, f.job, Event(DriverAssigned, row.version + 1, Some(DriverToPickup), {driver}));
      var response := OfferResponse(view.(status := Accepted, state := DriverToPickup, version := row.version + 1));
      database.tables := t.(core := c, journal := n, receipts := t.receipts[k := Receipt(fingerprint, response)]);
      return Ok(response);
    }

    /** rejectOffer */
    method RejectOffer(driver: Id, o: Id, key: Id, fingerprint: Id, now: Time, found: seq<R.Candidate>) returns (r: Outcome)
      requires Inv(database.tables)
      modifies database
      ensures Inv(database.tables)
      ensures (database.tables, r) == Applied(old(database.tables), RejectTrip(driver, o, key, fingerprint, now, found))
    {
      hide Inv, Holds, Joined, Sound, Receipted, Waiting, Asked, HasPending, Refuse, NextDriver, Search, Expire, Applied;
      hide ResolveOffer, ResolveReservation, FreeWork, MoveJob, AppendTransition, AppendOutbox;
      var t := database.tables;
      ghost var db, cmd := t, RejectTrip(driver, o, key, fingerprint, now, found);
      ghost var ix := Keyed(t, cmd);
      var k := ReceiptKey(driver, RejectTripOp, key);
      if k in t.receipts { return Replayed(t.receipts[k], fingerprint); }
      if o !in t.core.offers || !t.core.offers[o].job.Trip? { return Thrown(OfferNotFound); }
      var f := t.core.offers[o];
      OfferJoined(t, o);
      var view := ViewOf(t.core, o);
      if f.driver != driver { return Thrown(OfferNotForDriver); }
      if !f.status.Pending? { return Declined(OfferAlreadyResolved); }
      ReservedAlike(t, ix, o);
      var reservation := t.core.reservations[f.reservation];
      if !reservation.status.Active? { return Declined(OfferAlreadyResolved); }
      if reservation.expiresAt <= now || f.expiresAt <= now {
        t := ExpirePending(t, o, ix);
        database.tables := t;
        return Declined(OfferIsExpired);
      }
      var row := t.core.jobs[f.job];
      if !row.state.Matching? { return Declined(OfferAlreadyResolved); }
      RefusedIs(t, ix, o);
      var c := ResolveOffer(t.core, o, Rejected);
      c := ResolveReservation(c, f.reservation, Released);
      var freed := FreeWork(c, driver, f.job, Reserved);
      if freed.1 != 1 { return Thrown(WorkStateConflict); }
      var version := row.version + 1;
      var moved := MoveJob(freed.0, f.job, Matching, row.version, Matching);
      if moved.1 != 1 { return Thrown(TripNotMatchable); }
      var n := AppendTransition(t.journal, f.job, Transition(Act.RejectOffer, Some(driver), Some(Matching), Matching,
                                                             Some(row.version), version));
      n := AppendOutbox(n, f.job, Event(OfferRejected, version, None, {driver}));
      t := t.(core := moved.0, journal := n);
      RefuseKeeps(db, ix, o);
      var t', aborted, offer := ReserveOrExhaust(t, f.job, Some(driver), now, found, OfferReassigned, ExhaustAfterReject, Some(driver), ix);
      if aborted.Some? { return Thrown(aborted.value); }
      SearchedRows(t, ix, f.job, Some(driver), now, found, OfferReassigned, ExhaustAfterReject, Some(driver));
      var trip := t'.core.jobs[f.job];
      var response := RejectionResponse(view.(status := Rejected, state := trip.state, version := trip.version),
                                        if offer.Some? then Some(ViewOf(t'.core, offer.value)) else None);
      database.tables := t'.(receipts := t'.receipts[k := Receipt(fingerprint, response)]);
      return Ok(response);
    }

    /** expireDueOffer; `locked` when a row it needs is locked by another transaction. */
    method ExpireDueOffer(o: Id, locked: bool, now: Time, found: seq<R.Candidate>) returns (r: Outcome)
      requires Inv(database.tables)
      modifies database
      ensures Inv(database.tables)
      ensures (database.tables, r) == Applied(old(database.tables), SweepTrip(o, locked, now, found))
    {
      hide Inv, Holds, Joined, Sound, Receipted, Waiting, Asked, HasPending, Lapse, NextDriver, Search, Applied;
      var t := database.tables;
      ghost var db, cmd := t, SweepTrip(o, locked, now, found);
      ghost var ix := Unkeyed(t, cmd);
      if o !in t.core.offers || !t.core.offers[o].job.Trip? { return Ok(SweepResponse(false)); }
      var f := t.core.offers[o];
      if !f.status.Pending? || now < f.expiresAt { return Ok(SweepResponse(false)); }
      if locked { return Ok(SweepResponse(false)); }
      ReservedAlike(t, ix, o);
      HeldAlike(t, ix, o);
      var decision := Lifecycle.EvaluateExpiry(now, f.expiresAt, Pending, t.core.reservations[f.reservation].status,
                                               t.core.work[f.driver].state, t.core.jobs[f.job].state);
      if !decision.outcome.ExpiredAndReleased? { return Ok(SweepResponse(false)); }
      if !decision.reservation.after.Lapsed? || !decision.work.after.Available? { return Ok(SweepResponse(false)); }
      t := ExpireRows(t, o, ix);
      if decision.mayRetryMatching {
        LapseKeeps(db, ix, o);
        var t', aborted, _ :=
          ReserveOrExhaust(t, f.job, Some(f.driver), now, found, OfferReassigned, ExpireNoReassignment, None, ix);
        if aborted.Some? { return Thrown(aborted.value); }
        t := t';
      }
      database.tables := t;
      return Ok(SweepResponse(true));
    }

    /** startMatching */
    method StartMatching(customer: Id, id: Id, key: Id, fingerprint: Id, now: Time, found: seq<R.Candidate>) returns (r: Outcome)
      requires Inv(database.tables)
      modifies database
      ensures Inv(database.tables)
      ensures (database.tables, r) == Applied(old(database.tables), StartTrip(customer, id, key, fingerprint, now, found))
    {
      hide Inv, Holds, Joined, Sound, Receipted, Waiting, Asked, HasPending, NextDriver, Search, Applied, BeginMatching;
      hide MoveJob, AppendTransition, AppendOutbox, PendingOffer;
      var t := database.tables;
      ghost var db, cmd := t, StartTrip(customer, id, key, fingerprint, now, found);
      ghost var ix := Keyed(t, cmd);
      var k := ReceiptKey(customer, StartTripOp, key);
      if k in t.receipts { return Replayed(t.receipts[k], fingerprint); }
      var j := Trip(id);
      if j !in t.core.jobs || t.core.jobs[j].customer != customer { return Thrown(TripNotFound); }
      var state, version := t.core.jobs[j].state, t.core.jobs[j].version;
      if !state.Requested? && !state.Matching? { return Thrown(TripNotMatchable); }
      StartedTrip(t, ix, j);
      t := StartSearch(t, j);
      version := t.core.jobs[j].version;
      PendingInSound(t, ix, j);
      var pending := PendingOffers(t.core, j);
      if pending != {} {
        PendingSole(t, ix, j);
        var o :| o in pending;
        var response := MatchResponse(j, Matching, version, Some(ViewOf(t.core, o)));
        database.tables := t.(receipts := t.receipts[k := Receipt(fingerprint, response)]);
        return Ok(response);
      }
      NoPending(t.core, j);
      var t', aborted, offer := ReserveOrExhaust(t, j, None, now, found, OfferCreated, ExhaustMatching, None, ix);
      if aborted.Some? { return Thrown(aborted.value); }
      SearchedRows(t, ix, j, None, now, found, OfferCreated, ExhaustMatching, None);
      var trip := t'.core.jobs[j];
      var response := MatchResponse(j, trip.state, trip.version, if offer.Some? then Some(ViewOf(t'.core, offer.value)) else None);
      database.tables := t'.(receipts := t'.receipts[k := Receipt(fingerprint, response)]);
      return Ok(response);
    }

    /** expireDueOffers: each listed offer in a transaction of its own; only a domain conflict is passed over. */
    method ExpireDueOffers(rounds: seq<Round>) returns (processed: nat, failure: Option<Code>)
      requires Inv(database.tables)
      modifies database
      ensures Inv(database.tables)
      ensures Swept(old(database.tables), rounds) == (database.tables, processed, failure)
    {
      hide Inv, Applied;
      processed := 0;
      ghost var db := database.tables;
      var i := 0;
      while i < |rounds|
        invariant 0 <= i <= |rounds| && Inv(database.tables)
        invariant Swept(db, rounds) == Counted(processed, Swept(database.tables, rounds[i..]))
      {
        var round := rounds[i];
        assert rounds[i..][0] == round && rounds[i..][1..] == rounds[i + 1..];
        var r := ExpireDueOffer(round.offer, round.locked, round.now, round.found);
        i := i + 1;
        if r == Ok(SweepResponse(true)) { processed := processed + 1; }
        if r.Thrown? {
          if DispatchError(r.code) { continue; }
          return processed, Some(r.code);
        }
      }
      return processed, None;
    }

    /** transitionAssignedTrip */
    method TransitionAssignedTrip(
        driver: Id, id: Id, action: Action, key: Id, fingerprint: Id, distance: Option<int>, duration: Option<int>)
      returns (r: Outcome)
      requires Inv(database.tables)
      modifies database
      ensures Inv(database.tables)
      ensures (database.tables, r)
              == Applied(old(database.tables), DriveTrip(driver, id, action, key, fingerprint, distance, duration))
    {
      hide Inv, Holds, Joined, Sound, Receipted, Waiting, Asked, Applied, AssignmentOf, InOrder, DriveTripOn;
      var t := database.tables;
      ghost var db, cmd := t, DriveTrip(driver, id, action, key, fingerprint, distance, duration);
      ghost var ix := Keyed(t, cmd);
      var k := ReceiptKey(driver, DriveTripOp(action), key);
      if k in t.receipts { return Replayed(t.receipts[k], fingerprint); }
      var j := Trip(id);
      var a, failure := FindAssigned(t, j, driver, action, ix);
      if failure.Some? { return Thrown(failure.value); }
      var t', response := TransitionRows(t, a, action, distance, duration, ix);
      if response.Thrown? { return response; }
      database.tables := t'.(receipts := t'.receipts[k := Receipt(fingerprint, response.response)]);
      return response;
    }
  }

  /** The rows of a swept offer; a Trip that is not matching keeps its version. */
  method ExpireRows(t: Db, o: Id, ghost ix: Index) returns (t': Db)
    requires Sound(t, ix) && o in t.core.offers && t.core.offers[o].status.Pending? && t.core.offers[o].job.Trip?
    ensures OfferRows(t.core, o) && Known(t, t.core.offers[o].job) && t' == Lapse(t, o)
  {
    ReservedAlike(t, ix, o);
    LapsedIs(t, ix, o);
    hide Sound, Lapse, Expire, AppendTransition, AppendOutbox;
    var f := t.core.offers[o];
    var row := t.core.jobs[f.job];
    t' := ExpirePending(t, o, ix);
    if !row.state.Matching? {
      return t'.(journal := AppendOutbox(t'.journal, f.job, Event(OfferExpired, row.version, None, {f.driver})));
    }
    var version := row.version + 1;
    var c := t'.core.(jobs := t'.core.jobs[f.job := row.(state := Matching, version := version)]);
    var n := AppendTransition(t'.journal, f.job, Transition(Act.ExpireOffer, None, Some(Matching), Matching,
                                                            Some(row.version), version));
    n := AppendOutbox(n, f.job, Event(OfferExpired, version, None, {f.driver}));
    return t'.(core := c, journal := n);
  }

  /** The rows of a step that is in order. */
  method TransitionRows(t: Db, a: Id, action: Action, distance: Option<int>, duration: Option<int>, ghost ix: Index)
    returns (t': Db, r: Outcome)
    requires Sound(t, ix) && AssignmentRows(t.core, a) && InOrder(t.core, a, action)
    requires Known(t, t.core.assignments[a].job) && t.core.jobs[t.core.assignments[a].job].ride.Ride?
    ensures (t', r) == DriveTripOn(t, a, action, distance, duration)
    ensures !r.Declined? && (r.Thrown? ==> t' == t) && t'.receipts == t.receipts
  {
    hide Sound, Drive, Finish, Price, InOrder;
    hide BillJob, MoveJob, EndAssignment, BindWork, FreeWork, AppendTransition, AppendOutbox;
    var driver, j, policy := t.core.assignments[a].driver, t.core.assignments[a].job, TransitionPolicy(action);
    var row := t.core.jobs[j];
    var version := row.version + 1;
    var c, ride := t.core, row.ride;
    if action.CompleteJob? {
      if !PositiveSafe(distance) || !PositiveSafe(duration) { return t, Thrown(MeteringInvalid); }
      var metering := Metering(distance.value, duration.value, ride.surge);
      var price := Price(metering, ride.rules);
      if price.None? { return t, Thrown(SnapshotInvalid); }
      ride := ride.(metering := Some(metering), finalFare := Some(price.value.total));
      FinishedIs(t, ix, a, ride);
      var billed := BillJob(c, j, policy.from, row.version, policy.to, ride);
      if billed.1 != 1 { return t, Thrown(InvalidState); }
      var ended := EndAssignment(billed.0, a, Done);
      if ended.1 != 1 { return t, Thrown(InvalidState); }
      var freed := FreeWork(ended.0, driver, j, policy.workFrom);
      if freed.1 != 1 { return t, Thrown(WorkStateConflict); }
      c := freed.0;
    } else {
      DrivenIs(t, ix, a, action);
      var moved := MoveJob(c, j, policy.from, row.version, policy.to);
      if moved.1 != 1 { return t, Thrown(InvalidState); }
      var bound := BindWork(moved.0, driver, j, policy.workFrom, policy.workTo);
      if bound.1 != 1 { return t, Thrown(WorkStateConflict); }
      c := bound.0;
    }
    var n := AppendTransition(t.journal, j, Transition(policy.act, Some(driver), Some(policy.from), policy.to,
                                                       Some(row.version), version));
    n := AppendOutbox(n, j, Event(policy.kind, version, Some(policy.to), {driver}));
    return t.(core := c, journal := n), Ok(JobResponse(j, policy.to, version, Some(driver), ride.metering, ride.finalFare));
  }

  /** The aggregate with this Driver's assignment and work state, when the step is in order. */
  method FindAssigned(t: Db, j: Job, driver: Id, action: Action, ghost ix: Index)
    returns (a: Id, failure: Option<Code>)
    requires Sound(t, ix) && Joined(t)
    ensures var found := AssignmentOf(t.core, j, driver);
            if found.None?
            then failure == Some(if j in t.core.jobs then NotAssigned else if j.Trip? then TripNotFound else DeliveryNotFound)
            else
              && a == found.value && AssignmentRows(t.core, a) && Known(t, j)
              && t.core.assignments[a].job == j && t.core.assignments[a].driver == driver
              && (j.Trip? <==> t.core.jobs[j].ride.Ride?)
              && failure == if InOrder(t.core, a, action) then None else Some(InvalidState)
  {
    hide Sound, Joined, AssignmentOf;
    var matches := AssignmentsOf(t.core, j, driver);
    AssignedSole(t, ix, j, driver);
    if matches == {} {
      return 0, Some(if j in t.core.jobs then NotAssigned else if j.Trip? then TripNotFound else DeliveryNotFound);
    }
    a :| a in matches;
    var policy := TransitionPolicy(action);
    failure := None;
    if !t.core.assignments[a].status.Working? { failure := Some(InvalidState); }
    if t.core.jobs[j].state != policy.from || t.core.work[driver].state != policy.workFrom { failure := Some(InvalidState); }
  }

  /** One due offer of a sweep, and what its transaction finds. */
  datatype Round = Round(offer: Id, locked: bool, now: Time, found: seq<R.Candidate>)

  /** A DispatchCommandError; the others are thrown on. */
  predicate DispatchError(code: Code) {
    !code.RankingInvalid? && !code.UniqueViolation?
  }

  function SweepOf(round: Round): Command {
    SweepTrip(round.offer, round.locked, round.now, round.found)
  }

  /** A sweep as a run of its rounds: the database, how many offers expired, and what ended it early. */
  ghost function Swept(db: Db, rounds: seq<Round>): (Db, nat, Option<Code>)
    requires Inv(db)
    decreases |rounds|
  {
    if rounds == [] then (db, 0, None) else
    ApplyKeeps(db, SweepOf(rounds[0]));
    var (db', r) := Applied(db, SweepOf(rounds[0]));
    if r.Thrown? && !DispatchError(r.code) then (db', 0, Some(r.code))
    else Counted(if r == Ok(SweepResponse(true)) then 1 else 0, Swept(db', rounds[1..]))
  }

  function Counted(n: nat, swept: (Db, nat, Option<Code>)): (Db, nat, Option<Code>) {
    (swept.0, swept.1 + n, swept.2)
  }

  /** An offer accepted under a key has the receipt of it. */
  lemma AcceptedKeyHasReceipt(t: Db, ix: Index, o: Id)
    requires Holds(t, ix) && AcceptedTrip(t.core.offers, o)
    ensures ReceiptKey(t.core.offers[o].driver, AcceptTripOp, t.core.offers[o].acceptedKey.value) in t.receipts
  {
    hide Sound;
  }

  /** A pending offer's reservation is active and ends with it, and its aggregate is matching. */
  lemma ReservedAlike(t: Db, ix: Index, o: Id)
    requires Sound(t, ix) && o in t.core.offers && t.core.offers[o].status.Pending?
    ensures OfferRows(t.core, o) && Known(t, t.core.offers[o].job)
    ensures var f := t.core.offers[o];
            && t.core.reservations[f.reservation].status.Active? && t.core.reservations[f.reservation].expiresAt == f.expiresAt
            && t.core.jobs[f.job].state.Matching?
  {
    PendingRows(t, ix, o);
    PendingFacts(t.core, ix, o);
  }

  /** The statements of an acceptance change four rows, add one, and log it. */
  lemma HiredIs(t: Db, ix: Index, o: Id, key: Id, now: Time)
    requires Sound(t, ix) && o in t.core.offers && t.core.offers[o].status.Pending?
    ensures OfferRows(t.core, o) && Known(t, t.core.offers[o].job)
    ensures var f := t.core.offers[o];
            var row := t.core.jobs[f.job];
            var c2 := ResolveReservation(Statements.AcceptOffer(t.core, o, key, now), f.reservation, Committed);
            var c3 := BindWork(c2, f.driver, f.job, Reserved, ToPickup);
            var c4 := MoveJob(InsertAssignment(c3.0, f.job, o, f.driver), f.job, Matching, row.version, DriverToPickup).0;
            var n1 := AppendTransition(t.journal, f.job, Transition(AssignDriver, Some(f.driver), Some(Matching), DriverToPickup,
                                                                    Some(row.version), row.version + 1));
            var n2 := AppendOutbox(n1, f.job, Event(DriverAssigned, row.version + 1, Some(DriverToPickup), {f.driver}));
            && c3.1 == 1 && t.(core := c4, journal := n2) == Hire(t, o, key, now)
            && ViewOf(Hire(t, o, key, now).core, o)
                 == OfferView(o, f.job, f.driver, f.attempt, Accepted, f.expiresAt, DriverToPickup, row.version + 1)
  {
    ReservedAlike(t, ix, o);
    EngageIs(t.core, ix, o, key, now);
  }

  lemma OfferJoined(t: Db, o: Id)
    requires Joined(t) && o in t.core.offers
    ensures OfferRows(t.core, o) && Known(t, t.core.offers[o].job)
  {
  }

  /** The statements of a rejection, up to the search for another Driver. */
  lemma RefusedIs(t: Db, ix: Index, o: Id)
    requires Sound(t, ix) && o in t.core.offers && t.core.offers[o].status.Pending?
    ensures OfferRows(t.core, o) && Known(t, t.core.offers[o].job)
    ensures var f := t.core.offers[o];
            var version := t.core.jobs[f.job].version;
            var c2 := ResolveReservation(ResolveOffer(t.core, o, Rejected), f.reservation, Released);
            var freed := FreeWork(c2, f.driver, f.job, Reserved);
            var moved := MoveJob(freed.0, f.job, Matching, version, Matching);
            var n1 := AppendTransition(t.journal, f.job, Transition(Act.RejectOffer, Some(f.driver), Some(Matching), Matching,
                                                                    Some(version), version + 1));
            var n2 := AppendOutbox(n1, f.job, Event(OfferRejected, version + 1, None, {f.driver}));
            && freed.1 == 1 && moved.1 == 1 && t.(core := moved.0, journal := n2) == Refuse(t, o)
            && o in Refuse(t, o).core.offers && Refuse(t, o).core.offers[o] == f.(status := Rejected)
  {
    hide Linked, Logged, Settled;
    ReservedAlike(t, ix, o);
    ShutIs(t.core, ix, o, Rejected, Released);
  }

  /** The statements that exhaust a match. */
  lemma ExhaustedIs(t: Db, ix: Index, j: Job, act: Act, actor: Option<Id>)
    requires Searching(t, ix, j)
    ensures var version := t.core.jobs[j].version;
            var c := MoveJob(t.core, j, Matching, version, NoDriverAvailable).0;
            var n1 := AppendTransition(t.journal, j, Transition(act, actor, Some(Matching), NoDriverAvailable,
                                                                Some(version), version + 1));
            var n2 := AppendOutbox(n1, j, Event(NoDriverEvent, version + 1, Some(NoDriverAvailable), {}));
            t.(core := c, journal := n2) == Exhaust(t, j, act, actor)
  {
    hide Sound, HasPending;
  }

  lemma ExhaustRows(t: Db, j: Job, act: Act, actor: Option<Id>)
    requires Known(t, j)
    ensures j in Exhaust(t, j, act, actor).core.jobs && Exhaust(t, j, act, actor).core.offers == t.core.offers
  {
  }

  lemma OfferNextRows(t: Db, j: Job, d: Id, now: Time, attempt: nat, kind: EventKind)
    requires Known(t, j) && d in t.core.work && t.core.nextId + 1 !in t.core.offers
    ensures var c := OfferNext(t, j, d, now, attempt, kind).core;
            && j in c.jobs && t.core.nextId + 1 in c.offers && c.offers[t.core.nextId + 1].job == j
            && forall o | o in t.core.offers :: o in c.offers && c.offers[o] == t.core.offers[o]
  {
  }

  /** After a search the aggregate is there, and so is the new offer. */
  lemma SearchedRows(
      t: Db, ix: Index, j: Job, excluded: Option<Id>, now: Time, found: seq<R.Candidate>, kind: EventKind, act: Act,
      actor: Option<Id>)
    requires Searching(t, ix, j) && j.Trip? && Search(t, j, excluded, now, found, kind, act, actor).Some?
    ensures var (t', offer) := Search(t, j, excluded, now, found, kind, act, actor).value;
            && j in t'.core.jobs && (offer.Some? ==> offer.value in t'.core.offers && t'.core.offers[offer.value].job == j)
            && forall o | o in t.core.offers :: o in t'.core.offers && t'.core.offers[o] == t.core.offers[o]
  {
    SoundFresh(t, ix);
    hide Sound, HasPending, NextDriver, MaxAttempt, Exhaust, OfferNext;
    var next := NextDriver(t, j, excluded, found, kind);
    if next.Nobody? {
      ExhaustRows(t, j, act, actor);
    } else {
      OfferNextRows(t, j, next.driver, now, MaxAttempt(t.core, j) + 1, kind);
    }
  }

  /** A pending offer's Driver is reserved. */
  lemma HeldAlike(t: Db, ix: Index, o: Id)
    requires Sound(t, ix) && o in t.core.offers && t.core.offers[o].status.Pending?
    ensures OfferRows(t.core, o) && t.core.work[t.core.offers[o].driver].state.Reserved?
  {
    PendingFacts(t.core, ix, o);
  }

  /** The statements of a sweep, up to the search for another Driver. */
  lemma LapsedIs(t: Db, ix: Index, o: Id)
    requires Sound(t, ix) && o in t.core.offers && t.core.offers[o].status.Pending?
    ensures OfferRows(t.core, o) && Known(t, t.core.offers[o].job)
    ensures var f, t1 := t.core.offers[o], Expire(t, o);
            var row := t.core.jobs[f.job];
            var c := t1.core.(jobs := t1.core.jobs[f.job := row.(state := Matching, version := row.version + 1)]);
            var n1 := AppendTransition(t1.journal, f.job, Transition(Act.ExpireOffer, None, Some(Matching), Matching,
                                                                     Some(row.version), row.version + 1));
            var n2 := AppendOutbox(n1, f.job, Event(OfferExpired, row.version + 1, None, {f.driver}));
            t1.(core := c, journal := n2) == Lapse(t, o)
  {
    ReservedAlike(t, ix, o);
  }

  lemma NoPending(c: Core, j: Job)
    requires PendingOffers(c, j) == {}
    ensures PendingOffer(c, j).None?
  {
  }

  /** The pending offer that the query finds is the only one. */
  lemma PendingSole(t: Db, ix: Index, j: Job)
    requires Sound(t, ix) && j in t.core.jobs && PendingOffers(t.core, j) != {}
    ensures PendingOffer(t.core, j).Some?
    ensures forall o | o in PendingOffers(t.core, j) :: PendingOffer(t.core, j) == Some(o)
  {
    var p := PendingOffer(t.core, j).value;
    assert p in PendingOffers(t.core, j);
    forall o | o in PendingOffers(t.core, j) ensures o == p {
      PendingFacts(t.core, ix, o);
      PendingFacts(t.core, ix, p);
    }
  }

  /** The assignment that the query finds is the only one. */
  lemma AssignedSole(t: Db, ix: Index, j: Job, d: Id)
    requires Sound(t, ix) && Joined(t)
    ensures AssignmentsOf(t.core, j, d) == {} ==> AssignmentOf(t.core, j, d).None?
    ensures forall a | a in AssignmentsOf(t.core, j, d) ::
              && AssignmentOf(t.core, j, d) == Some(a) && AssignmentRows(t.core, a) && Known(t, j)
              && (j.Trip? <==> t.core.jobs[j].ride.Ride?)
  {
    forall a | a in AssignmentsOf(t.core, j, d)
      ensures AssignmentOf(t.core, j, d) == Some(a) && AssignmentRows(t.core, a) && Known(t, j)
      ensures j.Trip? <==> t.core.jobs[j].ride.Ride?
    {
      var b := AssignmentOf(t.core, j, d).value;
      assert b in AssignmentsOf(t.core, j, d);
      assert AssignmentOk(t.core, ix, a) && AssignmentOk(t.core, ix, b);
      assert RideOk(t.core, t.books, ix, j);
    }
  }

  /** The statements of an arrival or a start. */
  lemma DrivenIs(t: Db, ix: Index, a: Id, action: Action)
    requires Sound(t, ix) && AssignmentRows(t.core, a) && InOrder(t.core, a, action) && !action.CompleteJob?
    ensures Known(t, t.core.assignments[a].job)
    ensures var g, p := t.core.assignments[a], TransitionPolicy(action);
            var row := t.core.jobs[g.job];
            var moved := MoveJob(t.core, g.job, p.from, row.version, p.to);
            var bound := BindWork(moved.0, g.driver, g.job, p.workFrom, p.workTo);
            var n1 := AppendTransition(t.journal, g.job, Transition(p.act, Some(g.driver), Some(p.from), p.to,
                                                                    Some(row.version), row.version + 1));
            var n2 := AppendOutbox(n1, g.job, Event(p.kind, row.version + 1, Some(p.to), {g.driver}));
            var t' := Drive(t, a, p.to, p.workTo, g.custody, p.act, p.kind);
            && moved.1 == 1 && bound.1 == 1 && t.(core := bound.0, journal := n2) == t'
            && g.job in t'.core.jobs && t'.core.jobs[g.job] == row.(state := p.to, version := row.version + 1)
  {
    WorkingRows(t, ix, a);
    ProgressIs(t.core, ix, a, TransitionPolicy(action).to, TransitionPolicy(action).workTo);
    hide Sound;
  }

  /** The statements of a completed Trip. */
  lemma FinishedIs(t: Db, ix: Index, a: Id, ride: Ride)
    requires Sound(t, ix) && AssignmentRows(t.core, a) && InOrder(t.core, a, CompleteJob)
    ensures Known(t, t.core.assignments[a].job)
    ensures var g, p := t.core.assignments[a], TransitionPolicy(CompleteJob);
            var row := t.core.jobs[g.job];
            var billed := BillJob(t.core, g.job, p.from, row.version, p.to, ride);
            var ended := EndAssignment(billed.0, a, Done);
            var freed := FreeWork(ended.0, g.driver, g.job, p.workFrom);
            var n1 := AppendTransition(t.journal, g.job, Transition(p.act, Some(g.driver), Some(p.from), p.to,
                                                                    Some(row.version), row.version + 1));
            var n2 := AppendOutbox(n1, g.job, Event(p.kind, row.version + 1, Some(p.to), {g.driver}));
            var t' := Finish(t, a, Done, Completed, ride, None, Complete, g.driver, CompletedEvent);
            && billed.1 == 1 && ended.1 == 1 && freed.1 == 1 && t.(core := freed.0, journal := n2) == t'
            && g.job in t'.core.jobs
            && t'.core.jobs[g.job] == row.(state := Completed, version := row.version + 1, ride := ride)
  {
    WorkingRows(t, ix, a);
    ReleaseIs(t.core, ix, a, Done, Completed, ride, None);
    hide Sound;
  }
}
