/** The Trip and payment repositories' transactions, in the manner of Repositories. */
module Bookings {
  import opened Basics
  import opened Fare
  import opened Tables
  import opened Events
  import opened Commitments
  import opened CommitmentSteps
  import opened Journals
  import opened Settlement
  import opened Steps
  import opened Queries
  import opened Commands
  import opened CommandProofs
  import opened MatchingSafety
  import opened Retries
  import opened Statements
  import opened Runs
  import opened Repositories

  class TripRepository {
    const database: Database

    constructor (database: Database)
      ensures this.database == database
    {
      this.database := database;
    }

    /** createTrip */
    method CreateTrip(customer: Id, quote: Id, key: Id, fingerprint: Id, now: Time) returns (r: Outcome)
      requires Inv(database.tables)
      modifies database
      ensures Inv(database.tables)
      ensures (database.tables, r) == Applied(old(database.tables), Command.CreateTrip(customer, quote, key, fingerprint, now))
    {
      hide Inv, Holds, Joined, Sound, Receipted, Waiting, Asked, Applied, HasActiveTrip, Book, AppendTransition, AppendOutbox;
      var t := database.tables;
      ghost var cmd := Command.CreateTrip(customer, quote, key, fingerprint, now);
      ghost var ix := Keyed(t, cmd);
      var k := ReceiptKey(customer, CreateTripOp, key);
      if k in t.receipts { return Replayed(t.receipts[k], fingerprint); }
      if quote !in t.books.quotes || t.books.quotes[quote].customer != customer { return Thrown(QuoteNotFound); }
      var q := t.books.quotes[quote];
      if q.status.QuoteActive? && q.expiresAt <= now {
        t := t.(books := t.books.(quotes := t.books.quotes[quote := q.(status := QuoteExpired)]));
        return Thrown(QuoteIsExpired);
      }
      if q.status.QuoteExpired? { return Thrown(QuoteIsExpired); }
      if !q.status.QuoteActive? { return Thrown(QuoteAlreadyConsumed); }
      if HasActiveTrip(t.core, customer) { return Thrown(ActiveTripExists); }
      var j := Trip(t.core.nextId);
      var row := JobRow(customer, Requested, 0, Ride(quote, q.rules, q.surge, q.total, None, None));
      var c := t.core.(nextId := t.core.nextId + 1, jobs := t.core.jobs[j := row]);
      var b := t.books.(quotes := t.books.quotes[quote := q.(status := Consumed)]);
      var n := AppendTransition(t.journal, j, Transition(Create, Some(customer), None, Requested, None, 0));
      var response := JobResponse(j, Requested, 0, None, None, None);
      n := AppendOutbox(n, j, Event(CreatedEvent, 0, Some(Requested), {}));
      BookedIs(t, ix, customer, quote);
      database.tables := t.(core := c, books := b, journal := n, receipts := t.receipts[k := Receipt(fingerprint, response)]);
      return Ok(response);
    }

    /** cancelTrip */
    method CancelTrip(customer: Id, id: Id, key: Id, fingerprint: Id) returns (r: Outcome)
      requires Inv(database.tables)
      modifies database
      ensures Inv(database.tables)
      ensures (database.tables, r) == Applied(old(database.tables), Command.CancelTrip(customer, id, key, fingerprint))
    {
      hide Inv, Holds, Joined, Sound, Receipted, Waiting, Asked, Applied, Finish, Cancelling, Drop, PendingOffer, WorkingAssignment;
      hide MoveJob, EndAssignment, FreeWork, AppendTransition, AppendOutbox;
      var t := database.tables;
      ghost var db, cmd := t, Command.CancelTrip(customer, id, key, fingerprint);
      ghost var ix := Keyed(t, cmd);
      var k := ReceiptKey(customer, CancelTripOp, key);
      if k in t.receipts { return Replayed(t.receipts[k], fingerprint); }
      var j := Trip(id);
      if j !in t.core.jobs || t.core.jobs[j].customer != customer { return Thrown(TripNotFound); }
      JoinedKnown(t, j);
      var row := t.core.jobs[j];
      var rule := CustomerCancellationRule(row.state);
      if rule.None? { return Thrown(CancellationNotAllowed); }
      var driver, drivers, c := None, {}, t.core;
      if row.state.Matching? {
        var failure;
        c, drivers, failure := RevokeOffers(t, j, ix);
        if failure { return Thrown(CancellationNotAllowed); }
      }
      if row.state.DriverToPickup? || row.state.AtPickup? {
        var matches := WorkingAssignments(t.core, j);
        WorkingSole(t, ix, j);
        if matches == {} { return Thrown(CancellationNotAllowed); }
        var a :| a in matches;
        var g := t.core.assignments[a];
        driver, drivers := Some(g.driver), {g.driver};
        DroppedIs(t, ix, a, customer);
        c := EndAssignment(c, a, Dropped).0;
        var freed := FreeWork(c, g.driver, j, ToPickup);
        if freed.1 != 1 { return Thrown(CancellationNotAllowed); }
        c := freed.0;
      } else {
        CancelledIs(t, ix, j);
      }
      var moved := MoveJob(c, j, row.state, row.version, Cancelled);
      if moved.1 != 1 { return Thrown(CancellationNotAllowed); }
      var n := AppendTransition(t.journal, j, Transition(Cancel, Some(customer), Some(row.state), Cancelled,
                                                         Some(row.version), row.version + 1));
      n := AppendOutbox(n, j, Event(CancelledEvent, row.version + 1, Some(Cancelled), drivers));
      var response := CancelResponse(j, row.version + 1, driver, rule.value);
      database.tables := t.(core := moved.0, journal := n, receipts := t.receipts[k := Receipt(fingerprint, response)]);
      return Ok(response);
    }
  }

  /** The loop over the pending offers of a cancelled Trip; `failure` when a Driver is not reserved for it. */
  method RevokeOffers(t: Db, j: Job, ghost ix: Index) returns (c: Core, drivers: set<Id>, failure: bool)
    requires Sound(t, ix) && Known(t, j)
    ensures !failure
    ensures match PendingOffer(t.core, j)
            case None => c == t.core && drivers == {}
            case Some(o) => o in t.core.offers && OfferRows(t.core, o) && c == Drop(t, o, Revoked, Released).core
                            && drivers == {t.core.offers[o].driver}
  {
    hide Sound, Drop, PendingOffer, ResolveOffer, ResolveReservation, FreeWork;
    c, drivers, failure := t.core, {}, false;
    var pending := PendingOffers(t.core, j);
    PendingCases(t, ix, j);
    while pending != {}
      invariant !failure
      invariant pending == PendingOffers(t.core, j) || (pending == {} && PendingOffer(t.core, j).Some?)
      invariant pending == PendingOffers(t.core, j) ==> c == t.core && drivers == {}
      invariant pending != PendingOffers(t.core, j) ==>
                  var o := PendingOffer(t.core, j).value;
                  o in t.core.offers && OfferRows(t.core, o) && c == Drop(t, o, Revoked, Released).core
                  && drivers == {t.core.offers[o].driver}
      decreases pending
    {
      var o :| o in pending;
      pending := pending - {o};
      var f := t.core.offers[o];
      drivers := drivers + {f.driver};
      RevokedIs(t, ix, o);
      c := ResolveOffer(c, o, Revoked);
      c := ResolveReservation(c, f.reservation, Released);
      var freed := FreeWork(c, f.driver, j, Reserved);
      if freed.1 != 1 { failure := true; return; }
      c := freed.0;
    }
  }

  lemma FreshAlike(t: Db, ix: Index)
    requires Sound(t, ix)
    ensures Trip(t.core.nextId) !in t.journal.log && Trip(t.core.nextId) !in t.journal.outbox
    ensures Delivery(t.core.nextId) !in t.journal.log && Delivery(t.core.nextId) !in t.journal.outbox
  {
    FreshIds(t.core, ix);
  }

  lemma BegunIs(n: Journal, j: Job, customer: Id)
    requires j !in n.log && j !in n.outbox
    ensures AppendOutbox(AppendTransition(n, j, Transition(Create, Some(customer), None, Requested, None, 0)),
                         j, Event(CreatedEvent, 0, Some(Requested), {})) == Begin(n, j, customer)
  {
    var t, e := Transition(Create, Some(customer), None, Requested, None, 0), Event(CreatedEvent, 0, Some(Requested), {});
    assert [] + [t] == [t] && [] + [e] == [e];
  }

  /** The statements of a booking. */
  lemma BookedIs(t: Db, ix: Index, customer: Id, quote: Id)
    requires Sound(t, ix) && quote in t.books.quotes
    ensures var j, q := Trip(t.core.nextId), t.books.quotes[quote];
            var row := JobRow(customer, Requested, 0, Ride(quote, q.rules, q.surge, q.total, None, None));
            var c := t.core.(nextId := t.core.nextId + 1, jobs := t.core.jobs[j := row]);
            var b := t.books.(quotes := t.books.quotes[quote := q.(status := Consumed)]);
            var n1 := AppendTransition(t.journal, j, Transition(Create, Some(customer), None, Requested, None, 0));
            var n2 := AppendOutbox(n1, j, Event(CreatedEvent, 0, Some(Requested), {}));
            && t.(core := c, books := b, journal := n2) == Book(t, customer, quote)
            && Book(t, customer, quote).receipts == t.receipts
  {
    hide Sound, Begin, AppendOutbox, AppendTransition;
    FreshAlike(t, ix);
    BegunIs(t.journal, Trip(t.core.nextId), customer);
  }

  /** The query for pending offers finds nothing, or the one there is. */
  lemma PendingCases(t: Db, ix: Index, j: Job)
    requires Sound(t, ix) && j in t.core.jobs
    ensures match PendingOffer(t.core, j)
            case None => PendingOffers(t.core, j) == {}
            case Some(o) => PendingOffers(t.core, j) == {o} && o in t.core.offers && t.core.offers[o].status.Pending?
                            && t.core.offers[o].job == j
  {
    if PendingOffers(t.core, j) != {} {
      PendingSole(t, ix, j);
      var p := PendingOffer(t.core, j).value;
      assert p in PendingOffers(t.core, j);
      assert PendingOffers(t.core, j) == {p};
    }
  }

  lemma RevokedIs(t: Db, ix: Index, o: Id)
    requires Sound(t, ix) && o in t.core.offers && t.core.offers[o].status.Pending?
    ensures OfferRows(t.core, o)
    ensures var f := t.core.offers[o];
            FreeWork(ResolveReservation(ResolveOffer(t.core, o, Revoked), f.reservation, Released), f.driver, f.job, Reserved)
              == (Drop(t, o, Revoked, Released).core, 1)
  {
    ShutIs(t.core, ix, o, Revoked, Released);
  }

  /** The statements that cancel a Trip nobody works on, after its pending offer is revoked. */
  lemma CancelledIs(t: Db, ix: Index, j: Job)
    requires Sound(t, ix) && Known(t, j)
    requires t.core.jobs[j].state.Requested? || t.core.jobs[j].state.Matching?
    ensures t.core.jobs[j].state.Requested? ==> PendingOffer(t.core, j).None?
    ensures PendingOffer(t.core, j).Some? ==> PendingOffer(t.core, j).value in t.core.offers && OfferRows(t.core, PendingOffer(t.core, j).value)
    ensures var pending := PendingOffer(t.core, j);
            var t1 := if pending.None? then t else Drop(t, pending.value, Revoked, Released);
            var drivers := if pending.None? then {} else {t.core.offers[pending.value].driver};
            var row := t.core.jobs[j];
            var moved := MoveJob(t1.core, j, row.state, row.version, Cancelled);
            var n1 := AppendTransition(t.journal, j, Transition(Cancel, Some(row.customer), Some(row.state), Cancelled,
                                                                Some(row.version), row.version + 1));
            var n2 := AppendOutbox(n1, j, Event(CancelledEvent, row.version + 1, Some(Cancelled), drivers));
            Known(t1, j) && moved.1 == 1 && t.(core := moved.0, journal := n2) == Cancelling(t1, j, drivers)
  {
    PendingCases(t, ix, j);
    if PendingOffer(t.core, j).Some? { PendingRows(t, ix, PendingOffer(t.core, j).value); }
    hide PendingOffer, Sound;
  }

  /** The statements that cancel a Trip whose Driver is on the way or at the pickup. */
  lemma DroppedIs(t: Db, ix: Index, a: Id, customer: Id)
    requires Sound(t, ix) && a in t.core.assignments && t.core.assignments[a].status.Working? && AssignmentRows(t.core, a)
    requires var s := t.core.jobs[t.core.assignments[a].job].state; s.DriverToPickup? || s.AtPickup?
    ensures Known(t, t.core.assignments[a].job)
    ensures var g := t.core.assignments[a];
            var row := t.core.jobs[g.job];
            var freed := FreeWork(EndAssignment(t.core, a, Dropped).0, g.driver, g.job, ToPickup);
            var moved := MoveJob(freed.0, g.job, row.state, row.version, Cancelled);
            var n1 := AppendTransition(t.journal, g.job, Transition(Cancel, Some(customer), Some(row.state), Cancelled,
                                                                    Some(row.version), row.version + 1));
            var n2 := AppendOutbox(n1, g.job, Event(CancelledEvent, row.version + 1, Some(Cancelled), {g.driver}));
            && freed.1 == 1 && moved.1 == 1
            && t.(core := moved.0, journal := n2)
                 == Finish(t, a, Dropped, Cancelled, row.ride, None, Cancel, customer, CancelledEvent)
  {
    WorkingRows(t, ix, a);
    DropOutIs(t.core, ix, a);
    hide Sound;
  }

  /** The query for a working assignment finds nothing, or the one there is. */
  lemma WorkingSole(t: Db, ix: Index, j: Job)
    requires Sound(t, ix)
    ensures WorkingAssignments(t.core, j) == {} ==> WorkingAssignment(t.core, j).None?
    ensures forall a | a in WorkingAssignments(t.core, j) ::
              WorkingAssignment(t.core, j) == Some(a) && AssignmentRows(t.core, a) && t.core.assignments[a].job == j
  {
    forall a | a in WorkingAssignments(t.core, j)
      ensures WorkingAssignment(t.core, j) == Some(a) && AssignmentRows(t.core, a)
    {
      var b := WorkingAssignment(t.core, j).value;
      assert b in WorkingAssignments(t.core, j);
      WorkingFacts(t.core, ix, a);
    }
  }

  class PaymentRepository {
    const database: Database

    constructor (database: Database)
      ensures this.database == database
    {
      this.database := database;
    }

    /** capture; the latest attempt is the one that was inserted last. */
    method Capture(customer: Id, id: Id, key: Id, fingerprint: Id, status: PaymentStatus) returns (r: Outcome)
      requires Inv(database.tables)
      modifies database
      ensures Inv(database.tables)
      ensures (database.tables, r) == Applied(old(database.tables), Command.Capture(customer, id, key, fingerprint, status))
    {
      hide Inv, Holds, Joined, Applied;
      var t := database.tables;
      ghost var cmd := Command.Capture(customer, id, key, fingerprint, status);
      ghost var ix := Keyed(t, cmd);
      CompletedRide(t, Trip(id));
      var k := ReceiptKey(customer, CaptureOp, key);
      if k in t.receipts { return Replayed(t.receipts[k], fingerprint); }
      var j := Trip(id);
      if j !in t.core.jobs { return Thrown(TripNotFound); }
      var row := t.core.jobs[j];
      if row.customer != customer { return Thrown(PaymentForbidden); }
      if !row.state.Completed? || row.ride.finalFare.None? { return Thrown(TripNotCompleted); }
      var attempts := if id in t.books.payments then t.books.payments[id] else [];
      var number := 1;
      if attempts != [] {
        var latest := Last(attempts);
        if latest.status.PaymentPending? { return Thrown(PaymentIsPending); }
        if latest.status.Succeeded? { return Thrown(AlreadySucceeded); }
        if latest.status.Unknown? { return Thrown(ReconciliationRequired); }
        number := latest.number + 1;
      }
      var attempt := Attempt(number, row.ride.finalFare.value, status);
      var b := t.books.(payments := t.books.payments[id := attempts + [attempt]]);
      var response := PaymentResponse(id, attempt);
      database.tables := t.(books := b, receipts := t.receipts[k := Receipt(fingerprint, response)]);
      return Ok(response);
    }
  }

  lemma CompletedRide(t: Db, j: Job)
    requires Inv(t) && j.Trip?
    ensures j in t.core.jobs ==> t.core.jobs[j].ride.Ride?
  {
    InvJoined(t);
  }
}
