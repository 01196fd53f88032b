/** Settlement over whole runs: quotes, fares and payments of the reachable databases. */
module Accounts {
  import opened Basics
  import opened Fare
  import opened Tables
  import opened Commitments
  import opened Settlement
  import opened Steps
  import opened History
  import opened Commands
  import opened Runs

  /** A quote is consumed by one Trip, and a Customer has one Trip that is not over. */
  lemma SoleTrip(db: Db, i: Job, j: Job)
    requires Inv(db) && i in db.core.jobs && j in db.core.jobs && i.Trip? && j.Trip?
    ensures db.core.jobs[i].ride.Ride? && db.core.jobs[j].ride.Ride?
    ensures db.core.jobs[i].ride.quote == db.core.jobs[j].ride.quote ==> i == j
    ensures (db.core.jobs[i].customer == db.core.jobs[j].customer
             && db.core.jobs[i].state !in {Completed, Cancelled, NoDriverAvailable}
             && db.core.jobs[j].state !in {Completed, Cancelled, NoDriverAvailable}) ==> i == j
  {
    hide Inv;
    var ix := RidesWitness(db, i, j);
  }

  lemma RidesWitness(db: Db, i: Job, j: Job) returns (ix: Index)
    requires Inv(db) && i in db.core.jobs && j in db.core.jobs
    ensures RideOk(db.core, db.books, ix, i) && RideOk(db.core, db.books, ix, j)
  {
    ix :| Holds(db, ix);
  }

  /**
   * The final fare is set exactly when the Trip is completed, and is the price of what was metered
   * under the rules and the surge of the Trip's own quote, which stands consumed by its Customer.
   */
  lemma FinalFare(db: Db, j: Job)
    requires Inv(db) && j in db.core.jobs && j.Trip?
    ensures var row := db.core.jobs[j];
            && row.ride.Ride? && row.ride.quote in db.books.quotes
            && var q := db.books.quotes[row.ride.quote];
               && q.status.Consumed? && q.customer == row.customer
               && Price(q.estimate, q.rules).Some? && Price(q.estimate, q.rules).value.total == row.ride.quotedTotal
               && (row.ride.finalFare.Some? <==> row.state.Completed?)
               && (row.state.Completed? ==>
                     && row.ride.metering.Some?
                     && row.ride.metering.value.surgeBps == Price(q.estimate, q.rules).value.appliedSurgeBps
                     && Price(row.ride.metering.value, q.rules).Some?
                     && Price(row.ride.metering.value, q.rules).value.total == row.ride.finalFare.value)
  {
    var ix :| Holds(db, ix);
    assert RideOk(db.core, db.books, ix, j);
    hide Price;
    assert QuoteOk(db.books.quotes[db.core.jobs[j].ride.quote]);
  }

  /** Once set, the bill and its quote stay. */
  lemma BillForever(db: Db, cmds: seq<Command>, j: Job)
    requires Inv(db) && j in db.core.jobs && db.core.jobs[j].state.Completed?
    ensures j in After(db, cmds).core.jobs && After(db, cmds).core.jobs[j] == db.core.jobs[j]
    ensures j.Trip? ==>
              && db.core.jobs[j].ride.Ride? && db.core.jobs[j].ride.quote in db.books.quotes
              && db.core.jobs[j].ride.quote in After(db, cmds).books.quotes
              && After(db, cmds).books.quotes[db.core.jobs[j].ride.quote] == db.books.quotes[db.core.jobs[j].ride.quote]
  {
    var ix :| Holds(db, ix);
    assert RideOk(db.core, db.books, ix, j);
    assert Later(db, After(db, cmds));
    assert JobLater(db.core.jobs[j], After(db, cmds).core.jobs[j]);
    if j.Trip? {
      var q := db.core.jobs[j].ride.quote;
      assert QuoteLater(db.books.quotes[q], After(db, cmds).books.quotes[q]);
    }
  }

  /** A Trip's attempts are numbered, charge its final fare, and all but the last have failed. */
  lemma Attempts(db: Db, t: Id)
    requires Inv(db) && t in db.books.payments
    ensures Trip(t) in db.core.jobs && db.core.jobs[Trip(t)].ride.Ride? && db.core.jobs[Trip(t)].ride.finalFare.Some?
    ensures AttemptsOk(db.books.payments[t], db.core.jobs[Trip(t)].ride.finalFare.value)
  {
    var ix :| Holds(db, ix);
    assert PaymentOk(db.core, db.books, t);
  }

  /** At most one attempt of a Trip is not a failure; so it is paid at most once. */
  lemma PaidOnce(db: Db, t: Id, i: nat, k: nat)
    requires Inv(db) && t in db.books.payments && i < |db.books.payments[t]| && k < |db.books.payments[t]|
    requires !db.books.payments[t][i].status.Failed? && !db.books.payments[t][k].status.Failed?
    ensures i == k == |db.books.payments[t]| - 1
  {
    Attempts(db, t);
  }

  lemma NoMoreAttempts(before: seq<Attempt>, after: seq<Attempt>, fare: int)
    requires before <= after && AttemptsOk(after, fare) && before != [] && !Last(before).status.Failed?
    ensures after == before
  {
    assert after[|before| - 1] == Last(before);
  }

  /** While an attempt is pending, unknown or successful nothing more is ever charged. */
  lemma ChargedForever(db: Db, cmds: seq<Command>, t: Id)
    requires Inv(db) && t in db.books.payments && db.books.payments[t] != []
    requires !Last(db.books.payments[t]).status.Failed?
    ensures t in After(db, cmds).books.payments && After(db, cmds).books.payments[t] == db.books.payments[t]
  {
    var before, after := db.books, After(db, cmds).books;
    assert BooksLater(before, after);
    Attempts(After(db, cmds), t);
    hide After, Inv;
    NoMoreAttempts(before.payments[t], after.payments[t], After(db, cmds).core.jobs[Trip(t)].ride.finalFare.value);
  }

  // ---- The quoted and the final fare

  lemma ClampTwice(value: int, low: int, high: int)
    requires low <= high
    ensures Clamp(Clamp(value, low, high), low, high) == Clamp(value, low, high)
    ensures low <= Clamp(value, low, high) <= high
  {
  }

  /** Charging the estimate itself under the surge that the quote applied gives the quoted price. */
  lemma QuoteAndFinalAgree(m: Metering<int>, r: Rules<int>)
    requires Price(m, r).Some?
    ensures Price(m.(surgeBps := Price(m, r).value.appliedSurgeBps), r) == Price(m, r)
  {
    ClampTwice(m.surgeBps, r.minimumSurgeBps, r.maximumSurgeBps);
    hide CeilDiv, Clamp, Scaled;
  }

  /** A Trip that was driven as estimated costs what was quoted. */
  lemma AsQuoted(db: Db, j: Job)
    requires Inv(db) && j in db.core.jobs && j.Trip? && db.core.jobs[j].state.Completed?
    ensures var row := db.core.jobs[j];
            && row.ride.Ride? && row.ride.metering.Some? && row.ride.quote in db.books.quotes
            && var q := db.books.quotes[row.ride.quote];
               (row.ride.metering.value.distance == q.estimate.distance
                && row.ride.metering.value.duration == q.estimate.duration) ==>
                 row.ride.finalFare == Some(row.ride.quotedTotal)
  {
    FinalFare(db, j);
    var q := db.books.quotes[db.core.jobs[j].ride.quote];
    QuoteAndFinalAgree(q.estimate, q.rules);
    hide Price, Inv;
  }
}
