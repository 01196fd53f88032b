/** Quotes, bills and payments: what they owe to the Trips, and that every change keeps it. */
module Settlement {
  import opened Basics
  import opened Fare
  import opened Tables
  import opened Commitments

  /** A quote holds the price of its estimate under its rules, and the surge that was applied. */
  predicate QuoteOk(q: Quote) {
    var price := Price(q.estimate, q.rules);
    price.Some? && price.value.total == q.total && price.value.appliedSurgeBps == q.surge
  }

  /** A Trip carries its consumed quote's terms, and a bill exactly when it is completed. */
  predicate TripOk(row: JobRow, b: Books) {
    && row.ride.Ride?
    && row.ride.quote in b.quotes
    && (var q := b.quotes[row.ride.quote];
        && q.status.Consumed? && q.customer == row.customer && q.rules == row.ride.rules
        && q.surge == row.ride.surge && q.total == row.ride.quotedTotal)
    && BillOk(row)
  }

  predicate BillOk(row: JobRow)
    requires row.ride.Ride?
  {
    if row.state.Completed? then
      && row.ride.metering.Some? && row.ride.finalFare.Some?
      && row.ride.metering.value.surgeBps == row.ride.surge
      && (var price := Price(row.ride.metering.value, row.ride.rules);
          price.Some? && price.value.total == row.ride.finalFare.value)
    else
      row.ride.metering.None? && row.ride.finalFare.None?
  }

  /** The quote has this one consumer, and a current Trip is its Customer's only one. */
  predicate SoleOk(j: Job, row: JobRow, ix: Index) {
    row.ride.Ride? ==>
      && row.ride.quote in ix.consumer && ix.consumer[row.ride.quote] == j
      && (!Terminal(row.state) ==> row.customer in ix.riding && ix.riding[row.customer] == j)
  }

  predicate RideOk(c: Core, b: Books, ix: Index, j: Job)
    requires j in c.jobs
  {
    && SoleOk(j, c.jobs[j], ix)
    && if j.Trip? then TripOk(c.jobs[j], b) else c.jobs[j].ride.Parcel?
  }

  /** Attempts are numbered from 1, charge the final fare, and all but the last have failed. */
  predicate AttemptsOk(attempts: seq<Attempt>, fare: int) {
    && (forall k | 0 <= k < |attempts| :: attempts[k].number == k + 1 && attempts[k].amount == fare)
    && (forall k | 0 <= k < |attempts| - 1 :: attempts[k].status.Failed?)
  }

  predicate PaymentOk(c: Core, b: Books, t: Id)
    requires t in b.payments
  {
    && Trip(t) in c.jobs && c.jobs[Trip(t)].state.Completed?
    && c.jobs[Trip(t)].ride.Ride? && c.jobs[Trip(t)].ride.finalFare.Some?
    && AttemptsOk(b.payments[t], c.jobs[Trip(t)].ride.finalFare.value)
  }

  ghost predicate Settled(c: Core, b: Books, ix: Index) {
    && (forall q | q in b.quotes :: q < c.nextId && QuoteOk(b.quotes[q]))
    && (forall j {:trigger RideOk(c, b, ix, j)} | j in c.jobs :: RideOk(c, b, ix, j))
    && (forall t {:trigger PaymentOk(c, b, t)} | t in b.payments :: PaymentOk(c, b, t))
  }

  /** The row of one aggregate that was not terminal has changed, but neither its Customer nor its terms. */
  lemma SettledStep(c: Core, c': Core, b: Books, ix: Index, ix': Index, j: Job)
    requires Settled(c, b, ix)
    requires ix'.consumer == ix.consumer && ix'.riding == ix.riding && c.nextId <= c'.nextId
    requires j in c.jobs && j in c'.jobs && LocalJobs(c.jobs, c'.jobs, j)
    requires c.jobs[j] == c'.jobs[j] || !c.jobs[j].state.Completed?
    requires RideOk(c', b, ix', j)
    ensures Settled(c', b, ix')
  {
    forall i | i in c'.jobs ensures RideOk(c', b, ix', i) {
      if i != j { assert RideOk(c, b, ix, i); }
    }
    forall t | t in b.payments ensures PaymentOk(c', b, t) { assert PaymentOk(c, b, t); }
  }

  lemma RideMoved(c: Core, c': Core, b: Books, ix: Index, ix': Index, j: Job, to: State)
    requires Settled(c, b, ix)
    requires ix'.consumer == ix.consumer && ix'.riding == ix.riding
    requires j in c.jobs && j in c'.jobs && c'.jobs[j] == Moved(c.jobs[j], to)
    requires !Terminal(c.jobs[j].state) && (to.Completed? ==> j.Delivery?)
    ensures RideOk(c', b, ix', j)
  {
    assert RideOk(c, b, ix, j);
  }
}
