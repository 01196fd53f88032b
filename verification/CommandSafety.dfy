/** Command by command: the invariant is kept and nothing is undone. */
module CommandSafety {
  import opened Basics
  import opened Fare
  import opened Tables
  import opened Events
  import opened Commitments
  import opened CommitmentSteps
  import opened Journals
  import opened Settlement
  import opened Steps
  import opened History
  import R = Ranking
  import opened Queries
  import opened Commands
  import opened CommandProofs

  // ---- Duty, quotes and payments

  lemma DutyEvolves(db: Db, d: Id, state: WorkState, j: Job)
    ensures Evolves(db, db.(core := Duty(db.core, d, state)), j, None)
  {
  }

  lemma SetWorkKeeps(db: Db, ix: Index, d: Id, available: bool, eligible: bool, j: Job)
    requires Sound(db, ix)
    ensures var db' := DoSetWork(db, d, available, eligible).0; Sound(db', ix) && Evolves(db, db', j, None)
  {
    hide Sound, Evolves;
    EvolvesSelf(db, j);
    var state := if available then Available else Offline;
    if DoSetWork(db, d, available, eligible).1.Ok? {
      DutySound(db, ix, d, state);
      DutyEvolves(db, d, state, j);
    }
  }

  lemma SkipId(c: Core, ix: Index)
    requires Linked(c, ix)
    ensures Linked(c.(nextId := c.nextId + 1), ix)
  {
    var j := Trip(c.nextId);
    Unborn(c, ix, j);
    LocalSelf(c, ix, j);
    hide OfferOk, AssignmentOk, ProofOk, JobOk, WorkOk;
    hide LocalJobs, LocalWork, LocalOffers, LocalReservations, LocalAssignments, LocalProofs;
    LinkedFrom(c, ix, c.(nextId := c.nextId + 1), ix, j, None);
  }

  lemma SettledBooks(c: Core, c': Core, b: Books, b': Books, ix: Index)
    requires Settled(c, b, ix) && c'.jobs == c.jobs && c.nextId <= c'.nextId
    requires forall q | q in b.quotes :: q in b'.quotes && b'.quotes[q] == b.quotes[q]
    requires forall q | q in b'.quotes :: q in b.quotes || (q < c'.nextId && QuoteOk(b'.quotes[q]))
    requires forall t | t in b'.payments :: PaymentOk(c', b', t)
    ensures Settled(c', b', ix)
  {
    hide QuoteOk;
    forall j | j in c'.jobs ensures RideOk(c', b', ix, j) { assert RideOk(c, b, ix, j); }
  }

  lemma SameJournal(c: Core, c': Core, ix: Index, n: Journal)
    requires Logged(c, ix, n) && c'.jobs == c.jobs && c'.assignments == c.assignments
    ensures Logged(c', ix, n)
  {
    hide Journaled;
    forall j | j in c'.jobs ensures JournalOk(c', ix, n, j) { assert JournalOk(c, ix, n, j); }
  }

  lemma BooksEvolve(db: Db, db': Db, j: Job)
    requires db'.core == db.core.(nextId := db'.core.nextId) && db.core.nextId <= db'.core.nextId
    requires db'.journal == db.journal && db'.receipts == db.receipts && BooksLater(db.books, db'.books)
    ensures Evolves(db, db', j, None)
  {
  }

  lemma QuoteSettled(db: Db, ix: Index, id: Id, q: Quote)
    requires Settled(db.core, db.books, ix) && id == db.core.nextId && QuoteOk(q)
    ensures Settled(db.core.(nextId := id + 1), db.books.(quotes := db.books.quotes[id := q]), ix)
    ensures id !in db.books.quotes
  {
    var c', b' := db.core.(nextId := id + 1), db.books.(quotes := db.books.quotes[id := q]);
    forall t | t in b'.payments ensures PaymentOk(c', b', t) {
      assert PaymentOk(db.core, db.books, t);
    }
    hide QuoteOk, PaymentOk;
    SettledBooks(db.core, c', db.books, b', ix);
  }

  lemma CaptureSettled(db: Db, ix: Index, customer: Id, id: Id, status: PaymentStatus)
    requires Settled(db.core, db.books, ix) && Joined(db) && DoCapture(db, customer, id, status).1.Ok?
    ensures Settled(db.core, DoCapture(db, customer, id, status).0.books, ix)
  {
    var b' := DoCapture(db, customer, id, status).0.books;
    forall t | t in b'.payments ensures PaymentOk(db.core, b', t) {
      if t in db.books.payments { assert PaymentOk(db.core, db.books, t); }
    }
    hide PaymentOk, DoCapture;
    SettledBooks(db.core, db.core, db.books, b', ix);
  }

  lemma IssueQuoteKeeps(
      db: Db, ix: Index, customer: Id, estimate: Metering<int>, rules: Rules<int>, expiresAt: Time, j: Job)
    requires Sound(db, ix)
    ensures var db' := DoIssueQuote(db, customer, estimate, rules, expiresAt).0;
            Sound(db', ix) && Evolves(db, db', j, None)
  {
    hide Price, Linked, Logged, Settled, Evolves;
    EvolvesSelf(db, j);
    if Price(estimate, rules).Some? {
      var db' := DoIssueQuote(db, customer, estimate, rules, expiresAt).0;
      SkipId(db.core, ix);
      SameJournal(db.core, db'.core, ix, db.journal);
      QuoteSettled(db, ix, db.core.nextId, db'.books.quotes[db.core.nextId]);
      BooksEvolve(db, db', j);
    }
  }

  lemma CaptureKeeps(db: Db, ix: Index, customer: Id, id: Id, status: PaymentStatus, j: Job)
    requires Sound(db, ix) && Joined(db)
    ensures var db' := DoCapture(db, customer, id, status).0; Sound(db', ix) && Evolves(db, db', j, None)
  {
    hide Linked, Logged, Settled, Evolves, Joined;
    EvolvesSelf(db, j);
    if DoCapture(db, customer, id, status).1.Ok? {
      var db' := DoCapture(db, customer, id, status).0;
      CaptureSettled(db, ix, customer, id, status);
      BooksEvolve(db, db', j);
    }
  }

  // ---- Creation

  function BookIndex(c: Core, ix: Index, customer: Id, quote: Id): Index {
    var j := Trip(c.nextId);
    ix.(trail := ix.trail[j := []], consumer := ix.consumer[quote := j], riding := ix.riding[customer := j])
  }

  /** Terms and Customers of the existing aggregates do not mention the new Trip's. */
  lemma BookRide(db: Db, ix: Index, customer: Id, quote: Id, i: Job)
    requires Settled(db.core, db.books, ix) && i in db.core.jobs && i != Trip(db.core.nextId)
    requires quote in db.books.quotes && db.books.quotes[quote].status.QuoteActive?
    requires !HasActiveTrip(db.core, customer)
    ensures RideOk(Book(db, customer, quote).core, Book(db, customer, quote).books, BookIndex(db.core, ix, customer, quote), i)
  {
    assert RideOk(db.core, db.books, ix, i);
  }

  lemma BookPayments(db: Db, ix: Index, customer: Id, quote: Id)
    requires Settled(db.core, db.books, ix) && Trip(db.core.nextId) !in db.core.jobs && quote in db.books.quotes
    ensures var db' := Book(db, customer, quote);
            forall t | t in db'.books.payments :: PaymentOk(db'.core, db'.books, t)
  {
    var db' := Book(db, customer, quote);
    forall t | t in db'.books.payments ensures PaymentOk(db'.core, db'.books, t) {
      assert PaymentOk(db.core, db.books, t);
    }
  }

  lemma BookSettled(db: Db, ix: Index, customer: Id, quote: Id)
    requires Sound(db, ix) && Trip(db.core.nextId) !in db.core.jobs
    requires quote in db.books.quotes && db.books.quotes[quote].status.QuoteActive?
    requires db.books.quotes[quote].customer == customer && !HasActiveTrip(db.core, customer)
    ensures Settled(Book(db, customer, quote).core, Book(db, customer, quote).books, BookIndex(db.core, ix, customer, quote))
  {
    hide Linked, Logged, Price, HasActiveTrip;
    var db', ix' := Book(db, customer, quote), BookIndex(db.core, ix, customer, quote);
    var j := Trip(db.core.nextId);
    assert RideOk(db'.core, db'.books, ix', j);
    BookPayments(db, ix, customer, quote);
    forall i | i in db'.core.jobs ensures RideOk(db'.core, db'.books, ix', i) {
      if i != j { BookRide(db, ix, customer, quote, i); }
    }
    hide RideOk, PaymentOk;
  }

  lemma BookKeeps(db: Db, ix: Index, customer: Id, quote: Id)
    requires Sound(db, ix)
    requires quote in db.books.quotes && db.books.quotes[quote].status.QuoteActive?
    requires db.books.quotes[quote].customer == customer && !HasActiveTrip(db.core, customer)
    ensures Sound(Book(db, customer, quote), BookIndex(db.core, ix, customer, quote))
  {
    var j, row := Trip(db.core.nextId), TripRow(customer, quote, db.books.quotes[quote]);
    var ix' := BookIndex(db.core, ix, customer, quote);
    FreshIds(db.core, ix);
    BookSettled(db, ix, customer, quote);
    hide Settled, Logged, HasActiveTrip;
    EnterJournal(db, ix, ix', j, row);
    AddJobKeeps(db.core, ix, j, row);
    SameLinks(AddJob(db.core, j, row), ix.(trail := ix.trail[j := []]), ix');
  }

  /** The invariant of matching does not speak of quotes and Customers. */
  lemma SameLinks(c: Core, ix: Index, ix': Index)
    requires Linked(c, ix) && ix' == ix.(consumer := ix'.consumer, riding := ix'.riding)
    ensures Linked(c, ix')
  {
    SameOffers(c, ix, ix');
    hide OfferOk;
    forall d | d in c.work ensures WorkOk(c, ix', d) { assert WorkOk(c, ix, d); }
    forall r | r in c.reservations ensures ReservationOk(c, ix', r) { assert ReservationOk(c, ix, r); }
    forall a | a in c.assignments ensures AssignmentOk(c, ix', a) { assert AssignmentOk(c, ix, a); }
    forall p | p in c.proofs ensures ProofOk(c, ix', p) { assert ProofOk(c, ix, p); }
    forall j | j in c.jobs ensures JobOk(c, ix', j) { assert JobOk(c, ix, j); }
  }

  lemma SameOffers(c: Core, ix: Index, ix': Index)
    requires Linked(c, ix) && ix' == ix.(consumer := ix'.consumer, riding := ix'.riding)
    ensures forall o {:trigger OfferOk(c, ix', o)} | o in c.offers :: OfferOk(c, ix', o)
  {
    forall o | o in c.offers ensures OfferOk(c, ix', o) { assert OfferOk(c, ix, o); }
  }

  lemma BookEvolves(db: Db, customer: Id, quote: Id)
    requires var j := Trip(db.core.nextId); j !in db.core.jobs && j !in db.journal.log && j !in db.journal.outbox
    requires quote in db.books.quotes && db.books.quotes[quote].status.QuoteActive?
    ensures Evolves(db, Book(db, customer, quote), Trip(db.core.nextId), None)
  {
    EnterEvolves(db, Trip(db.core.nextId), TripRow(customer, quote, db.books.quotes[quote]));
  }

  lemma CreateTripKeeps(db: Db, ix: Index, customer: Id, quote: Id, now: Time) returns (ix': Index)
    requires Sound(db, ix)
    ensures var db' := DoCreateTrip(db, customer, quote, now).0;
            Sound(db', ix') && Evolves(db, db', Trip(db.core.nextId), None)
  {
    ix' := ix;
    EvolvesSelf(db, Trip(db.core.nextId));
    FreshIds(db.core, ix);
    hide Linked, Settled, Evolves, HasActiveTrip;
    if DoCreateTrip(db, customer, quote, now).1.Ok? {
      ix' := BookIndex(db.core, ix, customer, quote);
      BookKeeps(db, ix, customer, quote);
      BookEvolves(db, customer, quote);
    }
  }

  lemma CreateDeliveryKeeps(db: Db, ix: Index, customer: Id) returns (ix': Index)
    requires Sound(db, ix)
    ensures var db' := DoCreateDelivery(db, customer).0;
            Sound(db', ix') && Evolves(db, db', Delivery(db.core.nextId), None)
  {
    var j, row := Delivery(db.core.nextId), JobRow(customer, Requested, 0, Parcel);
    FreshIds(db.core, ix);
    hide Linked, Settled, Evolves;
    ix' := ix.(trail := ix.trail[j := []]);
    EnterDeliveryKeeps(db, ix, row);
    EnterEvolves(db, j, row);
  }
}
