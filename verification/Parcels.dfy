/** The Delivery repository's transactions, in the manner of Repositories. */
module Parcels {
  import opened Basics
  import opened Fare
  import opened Tables
  import opened Events
  import opened Commitments
  import opened CommitmentSteps
  import opened Journals
  import opened Settlement
  import opened Steps
  import R = Ranking
  import opened Queries
  import opened Commands
  import opened CommandProofs
  import opened MatchingSafety
  import opened Retries
  import opened Statements
  import opened Runs
  import opened Repositories
  import opened Bookings

  class DeliveryRepository {
    const database: Database

    constructor (database: Database)
      ensures this.database == database
    {
      this.database := database;
    }

    /** createDelivery */
    method CreateDelivery(customer: Id, key: Id, fingerprint: Id) returns (r: Outcome)
      requires Inv(database.tables)
      modifies database
      ensures Inv(database.tables)
      ensures (database.tables, r) == Applied(old(database.tables), Command.CreateDelivery(customer, key, fingerprint))
    {
      hide Inv, Holds, Joined, Sound, Receipted, Waiting, Asked, Applied, Begin, AppendTransition, AppendOutbox;
      var t := database.tables;
      ghost var cmd := Command.CreateDelivery(customer, key, fingerprint);
      ghost var ix := Keyed(t, cmd);
      var k := ReceiptKey(customer, CreateDeliveryOp, key);
      if k in t.receipts { return Replayed(t.receipts[k], fingerprint); }
      var j := Delivery(t.core.nextId);
      var row := JobRow(customer, Requested, 0, Parcel);
      FreshAlike(t, ix);
      BegunIs(t.journal, j, customer);
      var c := t.core.(nextId := t.core.nextId + 1, jobs := t.core.jobs[j := row]);
      var response := JobResponse(j, Requested, 0, None, None, None);
      var n := AppendTransition(t.journal, j, Transition(Create, Some(customer), None, Requested, None, 0));
      n := AppendOutbox(n, j, Event(CreatedEvent, 0, Some(Requested), {}));
      database.tables := t.(core := c, journal := n, receipts := t.receipts[k := Receipt(fingerprint, response)]);
      return Ok(response);
    }

    /** startMatching */
    method StartMatching(customer: Id, id: Id, key: Id, fingerprint: Id, now: Time, found: seq<R.Candidate>) returns (r: Outcome)
      requires Inv(database.tables)
      modifies database
      ensures Inv(database.tables)
      ensures (database.tables, r) == Applied(old(database.tables), StartDelivery(customer, id, key, fingerprint, now, found))
    {
      hide Inv, Holds, Joined, Sound, Receipted, Waiting, Asked, HasPending, Applied, BeginMatching, OfferNext, Exhaust, FirstClaim, Candidates;
      hide MoveJob, AppendTransition, AppendOutbox;
      var t := database.tables;
      ghost var db, cmd := t, StartDelivery(customer, id, key, fingerprint, now, found);
      ghost var ix := Keyed(t, cmd);
      var k := ReceiptKey(customer, StartDeliveryOp, key);
      if k in t.receipts { return Replayed(t.receipts[k], fingerprint); }
      var j := Delivery(id);
      if j !in t.core.jobs || t.core.jobs[j].customer != customer { return Thrown(DeliveryNotFound); }
      if !t.core.jobs[j].state.Requested? { return Thrown(DeliveryNotMatchable); }
      BegunMatching(t, ix, j, customer);
      var version := t.core.jobs[j].version + 1;
      var c := MoveJob(t.core, j, Requested, version - 1, Matching).0;
      var n := AppendTransition(t.journal, j, Transition(Act.StartMatching, Some(customer), Some(Requested), Matching,
                                                         Some(version - 1), version));
      n := AppendOutbox(n, j, Event(MatchingStarted, version, Some(Matching), {}));
      t := t.(core := c, journal := n);
      var t', offer := ReserveOffer(t, j, now, found, ix);
      if offer.None? {
        ExhaustedIs(t', ix, j, ExhaustMatching, None);
        c := MoveJob(t'.core, j, Matching, version, NoDriverAvailable).0;
        n := AppendTransition(t'.journal, j, Transition(ExhaustMatching, None, Some(Matching), NoDriverAvailable,
                                                        Some(version), version + 1));
        n := AppendOutbox(n, j, Event(NoDriverEvent, version + 1, Some(NoDriverAvailable), {}));
        t' := t'.(core := c, journal := n);
      }
      MatchedRows(t, ix, j, now, found);
      var response := MatchResponse(j, t'.core.jobs[j].state, t'.core.jobs[j].version,
                                    if offer.Some? then Some(ViewOf(t'.core, offer.value)) else None);
      database.tables := t'.(receipts := t'.receipts[k := Receipt(fingerprint, response)]);
      return Ok(response);
    }

    /** acceptOffer; it has no receipt, and repeats its answer from the offer's row. */
    method AcceptOffer(driver: Id, o: Id, key: Id, now: Time) returns (r: Outcome)
      requires Inv(database.tables)
      modifies database
      ensures Inv(database.tables)
      ensures (database.tables, r) == Applied(old(database.tables), AcceptDelivery(driver, o, key, now))
    {
      hide Inv, Holds, Joined, Sound, Receipted, Waiting, Asked, Applied, Hire;
      hide Statements.AcceptOffer, ResolveReservation, BindWork, InsertAssignment, MoveJob, AppendTransition, AppendOutbox;
      var t := database.tables;
      ghost var cmd := AcceptDelivery(driver, o, key, now);
      ghost var ix := Unkeyed(t, cmd);
      if o !in t.core.offers || !t.core.offers[o].job.Delivery? { return Thrown(OfferNotFound); }
      var f := t.core.offers[o];
      OfferJoined(t, o);
      var view := ViewOf(t.core, o);
      if f.driver != driver { return Thrown(OfferNotForDriver); }
      if f.status.Accepted? && f.acceptedKey == Some(key) { return Ok(OfferResponse(view)); }
      if !f.status.Pending? { return Thrown(OfferAlreadyResolved); }
      ReservedAlike(t, ix, o);
      var reservation := t.core.reservations[f.reservation];
      if !reservation.status.Active? { return Thrown(OfferAlreadyResolved); }
      if reservation.expiresAt <= now || f.expiresAt <= now {
        t := ExpirePending(t, o, ix);
        return Thrown(OfferIsExpired);
      }
      var row := t.core.jobs[f.job];
      if !row.state.Matching? { return Thrown(OfferAlreadyResolved); }
      HiredAlike(t, ix, o, key, now);
      var bound := BindWork(t.core, driver, f.job, Reserved, ToPickup);
      if bound.1 != 1 { return Thrown(WorkStateConflict); }
      var c := ResolveReservation(bound.0, f.reservation, Committed);
      c := Statements.AcceptOffer(c, o, key, now);
      c := InsertAssignment(c, f.job, o, driver);
      c := MoveJob(c, f.job, Matching, row.version, DriverToPickup).0;
      var n := AppendTransition(t.journal, f.job, Transition(AssignDriver, Some(driver), Some(Matching), DriverToPickup,
                                                             Some(row.version), row.version + 1));
      n := AppendOutbox(n, f.job, Event(DriverAssigned, row.version + 1, Some(DriverToPickup), {driver}));
      database.tables := t.(core := c, journal := n);
      return Ok(OfferResponse(view.(status := Accepted, state := DriverToPickup, version := row.version + 1)));
    }

    /** transitionAssignedDelivery */
    method TransitionAssignedDelivery(driver: Id, id: Id, action: Action, key: Id, fingerprint: Id, confirmation: string)
      returns (r: Outcome)
      requires Inv(database.tables)
      modifies database
      ensures Inv(database.tables)
      ensures (database.tables, r)
              == Applied(old(database.tables), DriveDelivery(driver, id, action, key, fingerprint, confirmation))
    {
      hide Inv, Holds, Joined, Sound, Receipted, Waiting, Asked, Applied, AssignmentOf, InOrder, DriveDeliveryOn;
      var t := database.tables;
      ghost var cmd := DriveDelivery(driver, id, action, key, fingerprint, confirmation);
      ghost var ix := Keyed(t, cmd);
      var k := ReceiptKey(driver, DriveDeliveryOp(action), key);
      if k in t.receipts { return Replayed(t.receipts[k], fingerprint); }
      var j := Delivery(id);
      var a, failure := FindAssigned(t, j, driver, action, ix);
      if failure.Some? { return Thrown(failure.value); }
      var t', response := ParcelRows(t, a, action, confirmation, ix);
      if response.Thrown? { return response; }
      database.tables := t'.(receipts := t'.receipts[k := Receipt(fingerprint, response.response)]);
      return response;
    }

    /** One due offer of expireDueOffers; `locked` when a row it needs is locked by another transaction. */
    method ExpireDueOffer(o: Id, locked: bool, now: Time) returns (r: Outcome)
      requires Inv(database.tables)
      modifies database
      ensures Inv(database.tables)
      ensures (database.tables, r) == Applied(old(database.tables), SweepDelivery(o, locked, now))
    {
      hide Inv, Holds, Joined, Sound, Receipted, Waiting, Asked, HasPending, Applied, Expire, Exhaust;
      hide MoveJob, AppendTransition, AppendOutbox;
      var t := database.tables;
      ghost var cmd := SweepDelivery(o, locked, now);
      ghost var ix := Unkeyed(t, cmd);
      if o !in t.core.offers || !t.core.offers[o].job.Delivery? || locked { return Ok(SweepResponse(false)); }
      var f := t.core.offers[o];
      if !f.status.Pending? || now < f.expiresAt { return Ok(SweepResponse(false)); }
      ReservedAlike(t, ix, o);
      ExpireKeeps(t, ix, o);
      var row := t.core.jobs[f.job];
      var t' := ExpirePending(t, o, ix);
      if row.state.Matching? {
        ExpiredRow(t, o);
        ExhaustedIs(t', ix, f.job, ExpireNoReassignment, None);
        var c := MoveJob(t'.core, f.job, Matching, row.version, NoDriverAvailable).0;
        var n := AppendTransition(t'.journal, f.job, Transition(ExpireNoReassignment, None, Some(Matching),
                                                                NoDriverAvailable, Some(row.version), row.version + 1));
        n := AppendOutbox(n, f.job, Event(NoDriverEvent, row.version + 1, Some(NoDriverAvailable), {}));
        t' := t'.(core := c, journal := n);
      }
      database.tables := t';
      return Ok(SweepResponse(true));
    }

    /** expireDueOffers: each listed offer in a transaction of its own. */
    method ExpireDueOffers(rounds: seq<Due>) returns (expired: nat)
      requires Inv(database.tables)
      modifies database
      ensures Inv(database.tables)
      ensures (database.tables, expired) == SweptParcels(old(database.tables), rounds)
    {
      hide Inv, Applied;
      expired := 0;
      ghost var db := database.tables;
      var i := 0;
      while i < |rounds|
        invariant 0 <= i <= |rounds| && Inv(database.tables)
        invariant var rest := SweptParcels(database.tables, rounds[i..]);
                  SweptParcels(db, rounds) == (rest.0, rest.1 + expired)
      {
        var round := rounds[i];
        assert rounds[i..][0] == round && rounds[i..][1..] == rounds[i + 1..];
        var r := ExpireDueOffer(round.offer, round.locked, round.now);
        if r == Ok(SweepResponse(true)) { expired := expired + 1; }
        i := i + 1;
      }
    }
  }

  datatype Due = Due(offer: Id, locked: bool, now: Time)

  /** A sweep as a run of its rounds, and how many offers it expired. */
  ghost function SweptParcels(db: Db, rounds: seq<Due>): (Db, nat)
    requires Inv(db)
    decreases |rounds|
  {
    if rounds == [] then (db, 0) else
    var cmd := SweepDelivery(rounds[0].offer, rounds[0].locked, rounds[0].now);
    ApplyKeeps(db, cmd);
    var (db', r) := Applied(db, cmd);
    var rest := SweptParcels(db', rounds[1..]);
    (rest.0, rest.1 + if r == Ok(SweepResponse(true)) then 1 else 0)
  }

  /** reserveOffer: the first candidate whose claim succeeds, in the order of the query. */
  method ReserveOffer(t: Db, j: Job, now: Time, found: seq<R.Candidate>, ghost ix: Index)
    returns (t': Db, offer: Option<Id>)
    requires Searching(t, ix, j) && j.Delivery?
    ensures var first := FirstClaim(Candidates(t.core, j, None, found));
            if first.None? then offer.None? && t' == t
            else first.value in t.core.work && offer == Some(t.core.nextId + 1)
                 && t' == OfferNext(t, j, first.value, now, 1, OfferCreated)
  {
    hide Sound, HasPending, Candidates, InsertReservation, ClaimWork, InsertOffer, OfferNext;
    t' := t;
    var rows := Candidates(t.core, j, None, found);
    ParcelClaimable(t.core, j, found);
    var i := 0;
    while i < |rows|
      invariant 0 <= i <= |rows| && t' == t
      invariant FirstClaim(rows[i..]) == FirstClaim(rows)
    {
      var row := rows[i];
      assert rows[i..][0] == row && rows[i..][1..] == rows[i + 1..];
      i := i + 1;
      if row.conflict { continue; }
      var expiresAt := now + OFFER_TTL_MS;
      ParcelOffered(t, ix, j, row.driver, now);
      var r := t'.core.nextId;
      var c := InsertReservation(t'.core, j, row.driver, expiresAt);
      var claimed := ClaimWork(c, row.driver, j);
      if claimed.1 != 1 {
        t' := t'.(core := ResolveReservation(c, r, Released));
        continue;
      }
      var o := claimed.0.nextId;
      t' := t'.(core := InsertOffer(claimed.0, j, r, row.driver, 1, expiresAt));
      return t', Some(o);
    }
    return t', None;
  }

  lemma ParcelClaimable(c: Core, j: Job, found: seq<R.Candidate>)
    requires j.Delivery?
    ensures forall x | x in Candidates(c, j, None, found) :: x.driver in c.work && c.work[x.driver].state.Available?
  {
    CandidatesClaimable(c, j, None, found);
  }

  /** Reservation, claim and offer; a Delivery's outbox does not tell of it. */
  lemma ParcelOffered(t: Db, ix: Index, j: Job, d: Id, now: Time)
    requires Sound(t, ix) && Known(t, j) && j.Delivery? && d in t.core.work && t.core.work[d].state.Available?
    ensures var expiresAt := now + OFFER_TTL_MS;
            var claimed := ClaimWork(InsertReservation(t.core, j, d, expiresAt), d, j);
            && claimed.1 == 1 && claimed.0.nextId == t.core.nextId + 1
            && t.(core := InsertOffer(claimed.0, j, t.core.nextId, d, 1, expiresAt)) == OfferNext(t, j, d, now, 1, OfferCreated)
  {
    OpenIs(t.core, ix, j, d, now + OFFER_TTL_MS, 1);
  }

  lemma StartedIs(t: Db, j: Job, customer: Id)
    requires Known(t, j) && t.core.jobs[j].state.Requested?
    ensures var version := t.core.jobs[j].version;
            var c := MoveJob(t.core, j, Requested, version, Matching).0;
            var n1 := AppendTransition(t.journal, j, Transition(Act.StartMatching, Some(customer), Some(Requested), Matching,
                                                                Some(version), version + 1));
            var n2 := AppendOutbox(n1, j, Event(MatchingStarted, version + 1, Some(Matching), {}));
            var t' := t.(core := c, journal := n2);
            && t' == BeginMatching(t, j, Some(customer)) && j in t'.core.jobs && t'.core.jobs[j].version == version + 1
  {
  }

  /** The statements that start a Delivery's match. */
  lemma BegunMatching(t: Db, ix: Index, j: Job, customer: Id)
    requires Sound(t, ix) && j in t.core.jobs && t.core.jobs[j].state.Requested?
    ensures Known(t, j)
    ensures var version := t.core.jobs[j].version;
            var c := MoveJob(t.core, j, Requested, version, Matching).0;
            var n1 := AppendTransition(t.journal, j, Transition(Act.StartMatching, Some(customer), Some(Requested), Matching,
                                                                Some(version), version + 1));
            var n2 := AppendOutbox(n1, j, Event(MatchingStarted, version + 1, Some(Matching), {}));
            var t' := t.(core := c, journal := n2);
            && t' == BeginMatching(t, j, Some(customer)) && Searching(t', ix, j)
            && t'.core.jobs[j].version == version + 1 && t'.receipts == t.receipts
  {
    AllKnown(t, ix);
    StartedIs(t, j, customer);
    hide Sound, HasPending, MoveJob, AppendTransition, AppendOutbox, BeginMatching;
    BeginMatchingKeeps(t, ix, j, Some(customer));
  }

  /** After the search the Delivery is there, and so is its offer. */
  lemma MatchedRows(t: Db, ix: Index, j: Job, now: Time, found: seq<R.Candidate>)
    requires Searching(t, ix, j) && j.Delivery?
    ensures j in Exhaust(t, j, ExhaustMatching, None).core.jobs
    ensures var first := FirstClaim(Candidates(t.core, j, None, found));
            first.Some? ==>
              && first.value in t.core.work
              && var c := OfferNext(t, j, first.value, now, 1, OfferCreated).core;
                 j in c.jobs && t.core.nextId + 1 in c.offers && c.offers[t.core.nextId + 1].job == j
  {
    SoundFresh(t, ix);
    hide Sound, HasPending, FirstClaim, Candidates, Exhaust, OfferNext;
    ExhaustRows(t, j, ExhaustMatching, None);
    var rows := Candidates(t.core, j, None, found);
    if FirstClaim(rows).Some? {
      FirstClaimIn(rows);
      ParcelClaimable(t.core, j, found);
      OfferNextRows(t, j, FirstClaim(rows).value, now, 1, OfferCreated);
    }
  }

  /** The acceptance's statements in the Delivery repository's order. */
  lemma HiredAlike(t: Db, ix: Index, o: Id, key: Id, now: Time)
    requires Sound(t, ix) && o in t.core.offers && t.core.offers[o].status.Pending?
    ensures OfferRows(t.core, o) && Known(t, t.core.offers[o].job)
    ensures var f := t.core.offers[o];
            var row := t.core.jobs[f.job];
            var bound := BindWork(t.core, f.driver, f.job, Reserved, ToPickup);
            var c2 := Statements.AcceptOffer(ResolveReservation(bound.0, f.reservation, Committed), o, key, now);
            var c4 := MoveJob(InsertAssignment(c2, f.job, o, f.driver), f.job, Matching, row.version, DriverToPickup).0;
            var n1 := AppendTransition(t.journal, f.job, Transition(AssignDriver, Some(f.driver), Some(Matching), DriverToPickup,
                                                                    Some(row.version), row.version + 1));
            var n2 := AppendOutbox(n1, f.job, Event(DriverAssigned, row.version + 1, Some(DriverToPickup), {f.driver}));
            && bound.1 == 1 && t.(core := c4, journal := n2) == Hire(t, o, key, now)
            && ViewOf(Hire(t, o, key, now).core, o)
                 == OfferView(o, f.job, f.driver, f.attempt, Accepted, f.expiresAt, DriverToPickup, row.version + 1)
  {
    HiredIs(t, ix, o, key, now);
    EngageIs(t.core, ix, o, key, now);
    hide Sound, Statements.AcceptOffer, ResolveReservation, BindWork, InsertAssignment, MoveJob, AppendTransition, AppendOutbox;
  }

  lemma ExpiredRow(t: Db, o: Id)
    requires OfferRows(t.core, o)
    ensures Expire(t, o).core.jobs == t.core.jobs
  {
  }

  /** The rows of a step that is in order. */
  method ParcelRows(t: Db, a: Id, action: Action, confirmation: string, ghost ix: Index) returns (t': Db, r: Outcome)
    requires Sound(t, ix) && AssignmentRows(t.core, a) && InOrder(t.core, a, action)
    requires Known(t, t.core.assignments[a].job) && t.core.jobs[t.core.assignments[a].job].ride.Parcel?
    ensures (t', r) == DriveDeliveryOn(t, a, action, confirmation)
    ensures r.Ok?
  {
    hide Sound, Drive, Finish, InOrder;
    hide BillJob, MoveJob, EndAssignment, BindWork, FreeWork, ConfirmCustody, InsertProof, AppendTransition, AppendOutbox;
    var g, policy := t.core.assignments[a], TransitionPolicy(action);
    var row := t.core.jobs[g.job];
    var moved := MoveJob(t.core, g.job, policy.from, row.version, policy.to);
    if action.CompleteJob? {
      HandedOverIs(t, ix, a, confirmation);
    } else if action.StartJob? {
      TakenOverIs(t, ix, a, confirmation);
    } else {
      DrivenIs(t, ix, a, action);
    }
    if moved.1 != 1 { return t, Thrown(InvalidState); }
    var c := moved.0;
    if action.StartJob? { c := ConfirmCustody(c, a, confirmation); }
    var work;
    if action.CompleteJob? {
      c := InsertProof(c, Proof(g.job, a, g.driver, confirmation));
      c := EndAssignment(c, a, Done).0;
      work := FreeWork(c, g.driver, g.job, policy.workFrom);
    } else {
      work := BindWork(c, g.driver, g.job, policy.workFrom, policy.workTo);
    }
    if work.1 != 1 { return t, Thrown(WorkStateConflict); }
    var n := AppendTransition(t.journal, g.job, Transition(policy.act, Some(g.driver), Some(policy.from), policy.to,
                                                           Some(row.version), row.version + 1));
    n := AppendOutbox(n, g.job, Event(policy.kind, row.version + 1, Some(policy.to), {g.driver}));
    return t.(core := work.0, journal := n), Ok(JobResponse(g.job, policy.to, row.version + 1, Some(g.driver), None, None));
  }

  /** The statements that take custody of a parcel. */
  lemma TakenOverIs(t: Db, ix: Index, a: Id, text: string)
    requires Sound(t, ix) && AssignmentRows(t.core, a) && InOrder(t.core, a, StartJob)
    ensures Known(t, t.core.assignments[a].job)
    ensures var g, p := t.core.assignments[a], TransitionPolicy(StartJob);
            var row := t.core.jobs[g.job];
            var moved := MoveJob(t.core, g.job, p.from, row.version, p.to);
            var bound := BindWork(ConfirmCustody(moved.0, a, text), g.driver, g.job, p.workFrom, p.workTo);
            var n1 := AppendTransition(t.journal, g.job, Transition(p.act, Some(g.driver), Some(p.from), p.to,
                                                                    Some(row.version), row.version + 1));
            var n2 := AppendOutbox(n1, g.job, Event(p.kind, row.version + 1, Some(p.to), {g.driver}));
            var t' := Drive(t, a, p.to, p.workTo, if g.custody.None? then Some(text) else g.custody, p.act, p.kind);
            && moved.1 == 1 && bound.1 == 1 && t.(core := bound.0, journal := n2) == t'
            && g.job in t'.core.jobs && t'.core.jobs[g.job] == row.(state := p.to, version := row.version + 1)
  {
    WorkingRows(t, ix, a);
    ProgressIs(t.core, ix, a, InProgress, OnTrip);
    CustodyIs(t.core, ix, a, InProgress, OnTrip, text);
    hide Sound;
  }

  /** The statements that hand a parcel over. */
  lemma HandedOverIs(t: Db, ix: Index, a: Id, text: string)
    requires Sound(t, ix) && AssignmentRows(t.core, a) && InOrder(t.core, a, CompleteJob)
    ensures Known(t, t.core.assignments[a].job)
    ensures var g, p := t.core.assignments[a], TransitionPolicy(CompleteJob);
            var row := t.core.jobs[g.job];
            var proof := Proof(g.job, a, g.driver, text);
            var moved := MoveJob(t.core, g.job, p.from, row.version, p.to);
            var freed := FreeWork(EndAssignment(InsertProof(moved.0, proof), a, Done).0, g.driver, g.job, p.workFrom);
            var n1 := AppendTransition(t.journal, g.job, Transition(p.act, Some(g.driver), Some(p.from), p.to,
                                                                    Some(row.version), row.version + 1));
            var n2 := AppendOutbox(n1, g.job, Event(p.kind, row.version + 1, Some(p.to), {g.driver}));
            var t' := Finish(t, a, Done, Completed, row.ride, Some(proof), Complete, g.driver, CompletedEvent);
            && moved.1 == 1 && freed.1 == 1 && t.(core := freed.0, journal := n2) == t'
            && g.job in t'.core.jobs && t'.core.jobs[g.job] == row.(state := p.to, version := row.version + 1)
  {
    WorkingRows(t, ix, a);
    var g := t.core.assignments[a];
    ReleaseIs(t.core, ix, a, Done, Completed, t.core.jobs[g.job].ride, Some(Proof(g.job, a, g.driver, text)));
    hide Sound;
    assert t.core.jobs[g.job].(ride := t.core.jobs[g.job].ride) == t.core.jobs[g.job];
  }
}
