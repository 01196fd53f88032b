/**
 * The unique indexes and the binding check that the migrations declare on these tables hold in
 * every reachable database because of what the commands do; none is needed to keep the data sound.
 */
module Schema {
  import opened Basics
  import opened Tables
  import opened Events
  import opened Commitments
  import opened CommitmentSteps
  import opened Journals
  import opened Settlement
  import opened Steps
  import opened Runs
  import opened Exclusivity
  import opened Chronicles
  import opened Accounts

  /** A Driver is bound to at most one aggregate, exactly while reserved or engaged, and alone. */
  ghost predicate WorkIndexes(c: Core) {
    && (forall d | d in c.work ::
          if c.work[d].state.Offline? || c.work[d].state.Available?
          then c.work[d].trip.None? && c.work[d].delivery.None?
          else Current(c.work[d]).Some?)
    && (forall d, e | d in c.work && e in c.work && Current(c.work[d]).Some? && Current(c.work[d]) == Current(c.work[e]) ::
          d == e)
  }

  ghost predicate ReservationIndexes(c: Core) {
    forall r, s | r in AllActive(c) && s in AllActive(c)
                  && (c.reservations[r].driver == c.reservations[s].driver || c.reservations[r].job == c.reservations[s].job) ::
      r == s
  }

  ghost predicate OfferIndexes(c: Core) {
    && (forall o, p | o in AllPending(c) && p in AllPending(c)
                      && (c.offers[o].driver == c.offers[p].driver || c.offers[o].job == c.offers[p].job) :: o == p)
    && (forall o, p | o in c.offers && p in c.offers
                      && (c.offers[o].reservation == c.offers[p].reservation
                          || (c.offers[o].job == c.offers[p].job && c.offers[o].attempt == c.offers[p].attempt)) :: o == p)
    && (forall o, p | AcceptedTrip(c.offers, o) && AcceptedTrip(c.offers, p)
                      && c.offers[o].driver == c.offers[p].driver && c.offers[o].acceptedKey == c.offers[p].acceptedKey :: o == p)
  }

  ghost predicate AssignmentIndexes(c: Core) {
    && (forall a, b | a in c.assignments && b in c.assignments
                      && (c.assignments[a].job == c.assignments[b].job || c.assignments[a].offer == c.assignments[b].offer) :: a == b)
    && (forall a, b | a in AllWorking(c) && b in AllWorking(c) && c.assignments[a].driver == c.assignments[b].driver :: a == b)
  }

  ghost predicate ProofIndexes(c: Core) {
    forall p, q | p in c.proofs && q in c.proofs
                  && (c.proofs[p].job == c.proofs[q].job || c.proofs[p].assignment == c.proofs[q].assignment) :: p == q
  }

  ghost predicate JournalIndexes(n: Journal) {
    && (forall j, i, k | j in n.log && 0 <= i < k < |n.log[j]| :: n.log[j][i].toVersion != n.log[j][k].toVersion)
    && (forall j, i, k | j in n.outbox && 0 <= i < k < |n.outbox[j]| ::
          n.outbox[j][i].version != n.outbox[j][k].version || n.outbox[j][i].kind != n.outbox[j][k].kind)
  }

  ghost predicate BookIndexes(c: Core, b: Books) {
    && (forall i, j | i in c.jobs && j in c.jobs && c.jobs[i].ride.Ride? && c.jobs[j].ride.Ride?
                      && c.jobs[i].ride.quote == c.jobs[j].ride.quote :: i == j)
    && (forall t, i, k | t in b.payments && 0 <= i < k < |b.payments[t]| ::
          b.payments[t][i].number != b.payments[t][k].number
          && (b.payments[t][i].status.Failed? || b.payments[t][k].status.Failed?))
  }

  lemma WorkSafe(c: Core, ix: Index)
    requires Linked(c, ix)
    ensures WorkIndexes(c)
  {
    forall d | d in c.work
      ensures if c.work[d].state.Offline? || c.work[d].state.Available?
              then c.work[d].trip.None? && c.work[d].delivery.None? else Current(c.work[d]).Some?
    {
      assert WorkOk(c, ix, d);
    }
    forall d, e | d in c.work && e in c.work && Current(c.work[d]).Some? && Current(c.work[d]) == Current(c.work[e])
      ensures d == e
    {
      Sole(c, ix, d, e);
    }
  }

  /** Two Drivers bound to one aggregate are the same. */
  lemma Sole(c: Core, ix: Index, d: Id, e: Id)
    requires Linked(c, ix) && d in c.work && e in c.work
    requires Current(c.work[d]).Some? && Current(c.work[d]) == Current(c.work[e])
    ensures d == e
  {
    assert WorkOk(c, ix, d);
    assert WorkOk(c, ix, e);
    var j := Current(c.work[d]).value;
    if HasPending(c, ix, j) && HasAssignment(c, ix, j, Working) {
      WorkingFacts(c, ix, ix.staff[j]);
    }
  }

  lemma ReservationSafe(c: Core, ix: Index)
    requires Linked(c, ix)
    ensures ReservationIndexes(c)
  {
    forall r, s | r in AllActive(c) && s in AllActive(c)
                  && (c.reservations[r].driver == c.reservations[s].driver || c.reservations[r].job == c.reservations[s].job)
      ensures r == s
    {
      HeldBy(c, ix, r);
      HeldBy(c, ix, s);
    }
  }

  /** An active reservation is its aggregate's newest offer's, and its Driver is bound to the aggregate. */
  lemma HeldBy(c: Core, ix: Index, r: Id)
    requires Linked(c, ix) && r in AllActive(c)
    ensures var j := c.reservations[r].job;
            && HasPending(c, ix, j) && c.offers[Last(ix.trail[j])].reservation == r
            && c.reservations[r].driver in c.work && Current(c.work[c.reservations[r].driver]) == Some(j)
  {
    assert ReservationOk(c, ix, r);
    var o := Last(ix.trail[c.reservations[r].job]);
    assert OfferOk(c, ix, o);
  }

  lemma SameReservation(c: Core, ix: Index, o: Id, p: Id)
    requires Linked(c, ix) && o in c.offers && p in c.offers
    requires c.offers[o].reservation == c.offers[p].reservation
             || (c.offers[o].job == c.offers[p].job && c.offers[o].attempt == c.offers[p].attempt)
    ensures o == p
  {
    assert OfferOk(c, ix, o);
    assert OfferOk(c, ix, p);
    assert JobOk(c, ix, c.offers[o].job);
  }

  lemma OfferSafe(c: Core, ix: Index, receipts: map<ReceiptKey, Receipt>)
    requires Linked(c, ix) && Receipted(c.offers, receipts)
    ensures OfferIndexes(c)
  {
    forall o, p | o in AllPending(c) && p in AllPending(c)
                  && (c.offers[o].driver == c.offers[p].driver || c.offers[o].job == c.offers[p].job)
      ensures o == p
    {
      PendingFacts(c, ix, o);
      PendingFacts(c, ix, p);
    }
    forall o, p | o in c.offers && p in c.offers
                  && (c.offers[o].reservation == c.offers[p].reservation
                      || (c.offers[o].job == c.offers[p].job && c.offers[o].attempt == c.offers[p].attempt))
      ensures o == p
    {
      SameReservation(c, ix, o, p);
    }
  }

  lemma AssignmentSafe(c: Core, ix: Index)
    requires Linked(c, ix)
    ensures AssignmentIndexes(c) && ProofIndexes(c)
  {
    forall a, b | a in c.assignments && b in c.assignments
                  && (c.assignments[a].job == c.assignments[b].job || c.assignments[a].offer == c.assignments[b].offer)
      ensures a == b
    {
      assert AssignmentOk(c, ix, a);
      assert AssignmentOk(c, ix, b);
    }
    forall a, b | a in AllWorking(c) && b in AllWorking(c) && c.assignments[a].driver == c.assignments[b].driver
      ensures a == b
    {
      WorkingFacts(c, ix, a);
      WorkingFacts(c, ix, b);
    }
    forall p, q | p in c.proofs && q in c.proofs
                  && (c.proofs[p].job == c.proofs[q].job || c.proofs[p].assignment == c.proofs[q].assignment)
      ensures p == q
    {
      assert ProofOk(c, ix, p);
      assert ProofOk(c, ix, q);
    }
  }

  lemma BooksSafe(db: Db)
    requires Inv(db)
    ensures BookIndexes(db.core, db.books)
  {
    var ix :| Holds(db, ix);
    forall i, j | i in db.core.jobs && j in db.core.jobs && db.core.jobs[i].ride.Ride? && db.core.jobs[j].ride.Ride?
                  && db.core.jobs[i].ride.quote == db.core.jobs[j].ride.quote
      ensures i == j
    {
      assert RideOk(db.core, db.books, ix, i);
      assert RideOk(db.core, db.books, ix, j);
    }
    forall t, i, k | t in db.books.payments && 0 <= i < k < |db.books.payments[t]|
      ensures db.books.payments[t][i].number != db.books.payments[t][k].number
              && (db.books.payments[t][i].status.Failed? || db.books.payments[t][k].status.Failed?)
    {
      Attempts(db, t);
    }
  }

  /** All of them, in every reachable database. */
  lemma IndexesHold(db: Db)
    requires Inv(db)
    ensures WorkIndexes(db.core) && ReservationIndexes(db.core) && OfferIndexes(db.core)
    ensures AssignmentIndexes(db.core) && ProofIndexes(db.core)
    ensures JournalIndexes(db.journal) && BookIndexes(db.core, db.books)
  {
    BooksSafe(db);
    JournalSafe(db);
    var ix :| Holds(db, ix);
    hide Linked, Logged, Settled, Inv;
    WorkSafe(db.core, ix);
    ReservationSafe(db.core, ix);
    OfferSafe(db.core, ix, db.receipts);
    AssignmentSafe(db.core, ix);
  }

  lemma JournalSafe(db: Db)
    requires Inv(db)
    ensures JournalIndexes(db.journal)
  {
    var ix :| Holds(db, ix);
    forall j, i, k | j in db.journal.log && 0 <= i < k < |db.journal.log[j]|
      ensures db.journal.log[j][i].toVersion != db.journal.log[j][k].toVersion
    {
      assert JournalOk(db.core, ix, db.journal, j);
    }
    forall j, i, k | j in db.journal.outbox && 0 <= i < k < |db.journal.outbox[j]|
      ensures db.journal.outbox[j][i].version != db.journal.outbox[j][k].version
              || db.journal.outbox[j][i].kind != db.journal.outbox[j][k].kind
    {
      assert JournalOk(db.core, ix, db.journal, j);
    }
  }
}
