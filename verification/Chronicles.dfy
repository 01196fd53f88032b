/**
 * What the logs of a reachable database say: they replay to the stored rows, a Trip's run refines
 * its lifecycle table, and every aggregate comes to an end after a bounded number of changes.
 */
module Chronicles {
  import opened Basics
  import opened Tables
  import opened Events
  import opened Commitments
  import opened CommitmentSteps
  import opened Journals
  import opened Steps
  import opened History
  import Lifecycle
  import opened Queries
  import opened Commands
  import opened CommandProofs
  import opened Runs
  import opened Exclusivity

  // ---- Replaying the transition log

  /** The state and version after the logged transitions, None when they do not fit together. */
  function Replay(log: seq<Transition>): Option<(State, nat)> {
    if log == [] then None else
    var t, before := Last(log), Replay(log[..|log| - 1]);
    if |log| == 1 then
      if t.from.None? && t.fromVersion.None? then Some((t.to, t.toVersion)) else None
    else if before.Some? && t.from == Some(before.value.0) && t.fromVersion == Some(before.value.1)
            && t.toVersion == before.value.1 + 1
    then Some((t.to, t.toVersion))
    else None
  }

  lemma {:induction false} ReplayChain(j: Job, log: seq<Transition>)
    requires Chain(j, log)
    ensures Replay(log) == Some((Last(log).to, |log| - 1 as nat))
    decreases |log|
  {
    if |log| > 1 {
      ReplayChain(j, log[..|log| - 1]);
    } else {
      assert log[0].toVersion == 0;
    }
  }

  lemma JournalWitness(db: Db, j: Job) returns (ix: Index)
    requires Inv(db) && j in db.core.jobs
    ensures Known(db, j) && JournalOk(db.core, ix, db.journal, j)
  {
    ix :| Holds(db, ix);
  }

  /** Every aggregate's transition log replays to its row. */
  lemma EventSourced(db: Db, j: Job)
    requires Inv(db) && j in db.core.jobs
    ensures Known(db, j)
    ensures Replay(db.journal.log[j]) == Some((db.core.jobs[j].state, db.core.jobs[j].version))
    ensures |db.journal.log[j]| == db.core.jobs[j].version + 1
    ensures Told(db.journal.log[j], db.journal.outbox[j])
  {
    hide Inv;
    var ix := JournalWitness(db, j);
    ReplayChain(j, db.journal.log[j]);
  }

  // ---- The lifecycle table

  /** The table's command for a logged act; a rejected or swept offer has none. */
  function TableCommand(act: Act): Option<Lifecycle.TripCommand> {
    match act
    case StartMatching => Some(Lifecycle.StartMatchingCommand)
    case ExhaustMatching => Some(Lifecycle.ExhaustMatchingCommand)
    case ExhaustAfterReject => Some(Lifecycle.ExhaustMatchingCommand)
    case ExpireNoReassignment => Some(Lifecycle.ExhaustMatchingCommand)
    case AssignDriver => Some(Lifecycle.AssignDriverCommand)
    case Arrive => Some(Lifecycle.MarkAtPickupCommand)
    case Start => Some(Lifecycle.StartTripCommand)
    case Complete => Some(Lifecycle.CompleteTripCommand)
    case Cancel => Some(Lifecycle.CancelCommand)
    case _ => None
  }

  /** Every logged step of a Trip is an edge of the table, or leaves a matching Trip matching one version on. */
  lemma TripRefinesLifecycle(db: Db, j: Job, k: nat)
    requires Inv(db) && j in db.core.jobs && j.Trip?
    requires Known(db, j) && 0 < k < |db.journal.log[j]|
    ensures var before := db.journal.log[j][k - 1];
            var after := db.journal.log[j][k];
            && before.toVersion == k - 1 && after.toVersion == k
            && if after.act.RejectOffer? || after.act.ExpireOffer? then before.to.Matching? && after.to.Matching?
               else TableCommand(after.act).Some?
                    && Lifecycle.Apply(Lifecycle.TripSnapshot(before.to, k - 1), TableCommand(after.act).value)
                         == Some(Lifecycle.TripSnapshot(after.to, k))
  {
    hide Inv;
    var ix := JournalWitness(db, j);
    assert Legal(j, db.journal.log[j][k].act, db.journal.log[j][k - 1].to, db.journal.log[j][k].to);
  }

  /** Customer cancellation is stricter than the table: a Trip in progress has the edge but not the rule. */
  lemma CancellationIsStricter(s: State)
    ensures CustomerCancellationRule(s).Some? ==> Lifecycle.NextState(s, Lifecycle.CancelCommand) == Some(Cancelled)
    ensures CustomerCancellationRule(s).None? && Lifecycle.NextState(s, Lifecycle.CancelCommand).Some? <==> s.InProgress?
  {
  }

  // ---- Offers

  /** An aggregate's offers are numbered and go to different Drivers; only the newest may be pending. */
  lemma OffersInOrder(db: Db, j: Job, o: Id, p: Id)
    requires Inv(db) && o in OffersOf(db.core, j) && p in OffersOf(db.core, j) && o != p
    ensures var f, g := db.core.offers[o], db.core.offers[p];
            && 1 <= f.attempt <= (if j.Trip? then 3 else 1) && f.attempt != g.attempt && f.driver != g.driver
            && (f.status.Pending? ==> g.attempt < f.attempt && !g.status.Pending?)
            && (f.status.Accepted? ==> !g.status.Accepted?)
  {
    hide Inv;
    var ix := OffersWitness(db, j, o, p);
  }

  lemma OffersWitness(db: Db, j: Job, o: Id, p: Id) returns (ix: Index)
    requires Inv(db) && o in OffersOf(db.core, j) && p in OffersOf(db.core, j)
    ensures j in db.core.jobs && OfferOk(db.core, ix, o) && OfferOk(db.core, ix, p) && JobOk(db.core, ix, j)
  {
    ix :| Holds(db, ix);
    assert OfferOk(db.core, ix, o);
  }

  /** An accepted offer was accepted before the deadline it shared with its reservation. */
  lemma AcceptedInTime(db: Db, o: Id)
    requires Inv(db) && o in db.core.offers && db.core.offers[o].status.Accepted?
    ensures var f := db.core.offers[o];
            && f.reservation in db.core.reservations && db.core.reservations[f.reservation].status.Committed?
            && f.acceptedAt.Some? && f.acceptedAt.value < f.expiresAt == db.core.reservations[f.reservation].expiresAt
  {
    var ix :| Holds(db, ix);
    assert OfferOk(db.core, ix, o);
  }

  // ---- A bounded number of changes

  function ResolvedOf(c: Core, j: Job): set<Id> {
    set o | o in c.offers && c.offers[o].job == j && !c.offers[o].status.Pending?
  }

  /** Grows with every change of an aggregate's row or offers. */
  function Progress(c: Core, j: Job): nat
    requires j in c.jobs
  {
    c.jobs[j].version + |OffersOf(c, j)| + |ResolvedOf(c, j)|
  }

  lemma {:induction false} SubsetSize<T>(a: set<T>, b: set<T>)
    requires a <= b
    ensures |a| <= |b| && (|a| == |b| ==> a == b)
  {
    assert b == a + (b - a);
    assert |b| == |a| + |b - a|;
  }

  /** Later in a run an aggregate has made more progress, unless its row and offers are as they were. */
  lemma ProgressGrows(db: Db, cmds: seq<Command>, j: Job)
    requires Inv(db) && j in db.core.jobs
    ensures var c, c' := db.core, After(db, cmds).core;
            && j in c'.jobs && Progress(c, j) <= Progress(c', j)
            && (Progress(c, j) == Progress(c', j) ==>
                  && c'.jobs[j] == c.jobs[j] && OffersOf(c', j) == OffersOf(c, j)
                  && forall o | o in OffersOf(c, j) :: c'.offers[o] == c.offers[o])
  {
    var c, c' := db.core, After(db, cmds).core;
    assert Later(db, After(db, cmds));
    assert JobLater(c.jobs[j], c'.jobs[j]);
    hide After, Inv, JobLater, Later;
    GrowsFrom(c, c', j);
  }

  lemma GrowsFrom(c: Core, c': Core, j: Job)
    requires CoreLater(c, c') && j in c.jobs
    ensures j in c'.jobs && Progress(c, j) <= Progress(c', j)
    ensures Progress(c, j) == Progress(c', j) ==>
              && c'.jobs[j] == c.jobs[j] && OffersOf(c', j) == OffersOf(c, j)
              && forall o | o in OffersOf(c, j) :: c'.offers[o] == c.offers[o]
  {
    assert JobLater(c.jobs[j], c'.jobs[j]);
    forall o | o in c.offers ensures o in c'.offers && OfferLater(c.offers[o], c'.offers[o]) {}
    SubsetSize(OffersOf(c, j), OffersOf(c', j));
    SubsetSize(ResolvedOf(c, j), ResolvedOf(c', j));
    if Progress(c, j) == Progress(c', j) {
      forall o | o in OffersOf(c, j) ensures c'.offers[o] == c.offers[o] {
        assert o in OffersOf(c', j) && (o in ResolvedOf(c', j) <==> o in ResolvedOf(c, j));
      }
    }
  }

  lemma FewOffers(db: Db, j: Job)
    requires Inv(db) && j in db.core.jobs
    ensures |OffersOf(db.core, j)| <= MaxOffers(j)
  {
    var offers := OffersOf(db.core, j);
    var numbers := map o | o in offers :: db.core.offers[o].attempt;
    forall o, p | o in offers && p in offers && numbers[o] == numbers[p] ensures o == p {
      if o != p { OffersInOrder(db, j, o, p); }
    }
    forall o | o in offers ensures 1 <= numbers[o] <= MaxOffers(j) { Numbered(db, o); }
    hide Inv;
    FewImages(offers, numbers, MaxOffers(j));
  }

  lemma Numbered(db: Db, o: Id)
    requires Inv(db) && o in db.core.offers
    ensures 1 <= db.core.offers[o].attempt <= MaxOffers(db.core.offers[o].job)
  {
    var ix :| Holds(db, ix);
    assert OfferOk(db.core, ix, o);
    assert JobOk(db.core, ix, db.core.offers[o].job);
  }

  lemma {:induction false} FewImages(a: set<Id>, f: map<Id, nat>, n: nat)
    requires f.Keys == a && forall x | x in a :: 1 <= f[x] <= n
    requires forall x, y | x in a && y in a && f[x] == f[y] :: x == y
    ensures |a| <= n
    decreases n
  {
    if x :| x in a && f[x] == n {
      FewImages(a - {x}, f - {x}, n - 1);
    } else if n > 0 {
      FewImages(a, f, n - 1);
    } else {
      assert a == {};
    }
  }

  /** A Trip never passes version 7, nor a Delivery version 5, and changes of either are bounded. */
  lemma ProgressBounded(db: Db, j: Job)
    requires Inv(db) && j in db.core.jobs
    ensures j.Trip? ==> db.core.jobs[j].version <= 7 && Progress(db.core, j) <= 13
    ensures j.Delivery? ==> db.core.jobs[j].version <= 5 && Progress(db.core, j) <= 7
  {
    var ix :| Holds(db, ix);
    assert JobOk(db.core, ix, j);
    FewOffers(db, j);
    SubsetSize(ResolvedOf(db.core, j), OffersOf(db.core, j));
  }

  /** A terminal aggregate is never changed again, and neither are its offers. */
  lemma TerminalAbsorbs(db: Db, cmds: seq<Command>, j: Job)
    requires Inv(db) && j in db.core.jobs && db.core.jobs[j].state in {Completed, Cancelled, NoDriverAvailable}
    ensures var c, c' := db.core, After(db, cmds).core;
            && j in c'.jobs && c'.jobs[j] == c.jobs[j]
            && forall o | o in OffersOf(c, j) :: o in c'.offers && c'.offers[o] == c.offers[o]
  {
    var ix :| Holds(db, ix);
    var c, c' := db.core, After(db, cmds).core;
    assert Later(db, After(db, cmds));
    assert JobLater(c.jobs[j], c'.jobs[j]);
    forall o | o in OffersOf(c, j) ensures o in c'.offers && c'.offers[o] == c.offers[o] {
      assert OfferOk(c, ix, o);
      assert OfferLater(c.offers[o], c'.offers[o]);
    }
  }

  /** An offer leaves PENDING once: whatever it then is, it stays. */
  lemma ResolvedForever(db: Db, cmds: seq<Command>, o: Id)
    requires Inv(db) && o in db.core.offers
    ensures var f, c' := db.core.offers[o], After(db, cmds).core;
            && o in c'.offers && c'.offers[o].driver == f.driver && c'.offers[o].expiresAt == f.expiresAt
            && (!f.status.Pending? ==> c'.offers[o] == f)
  {
    assert Later(db, After(db, cmds));
    assert OfferLater(db.core.offers[o], After(db, cmds).core.offers[o]);
  }

  // ---- Deliveries

  /** What a Delivery's state says of its version, offers and assignment. */
  lemma DeliveryShape(db: Db, j: Job)
    requires Inv(db) && j in db.core.jobs && j.Delivery?
    ensures db.core.jobs[j].version == DeliveryVersion(db.core.jobs[j].state) && !db.core.jobs[j].state.Cancelled?
    ensures db.core.jobs[j].state.Matching? <==> Awaiting(db.core, j)
    ensures |OffersOf(db.core, j)| <= 1
    ensures forall a, b | a in db.core.assignments && b in db.core.assignments
                          && db.core.assignments[a].job == j && db.core.assignments[b].job == j :: a == b
  {
    var ix :| Holds(db, ix);
    assert JobOk(db.core, ix, j);
    FewOffers(db, j);
    forall o | o in db.core.offers && db.core.offers[o].job == j && db.core.offers[o].status.Pending?
      ensures db.core.jobs[j].state.Matching?
    {
      assert OfferOk(db.core, ix, o);
    }
    forall a | a in db.core.assignments && db.core.assignments[a].job == j ensures j in ix.staff && a == ix.staff[j] {
      assert AssignmentOk(db.core, ix, a);
    }
  }

  /**
   * A delivered parcel has exactly one proof, recorded by the Driver who accepted the one offer, took
   * custody and is the author of all four driving transitions in the log.
   */
  lemma DeliveredByOneDriver(db: Db, j: Job) returns (a: Id, p: Id)
    requires Inv(db) && j in db.core.jobs && j.Delivery? && db.core.jobs[j].state.Completed?
    ensures a in db.core.assignments && p in db.core.proofs
    ensures var g := db.core.assignments[a];
            && g.job == j && g.status.Done? && g.custody.Some?
            && g.offer in db.core.offers && db.core.offers[g.offer].status.Accepted?
            && db.core.offers[g.offer].job == j && db.core.offers[g.offer].driver == g.driver
            && db.core.proofs[p].job == j && db.core.proofs[p].assignment == a && db.core.proofs[p].recordedBy == g.driver
            && Known(db, j) && |db.journal.log[j]| == 6
            && (forall k | 2 <= k <= 5 :: db.journal.log[j][k].actor == Some(g.driver))
            && db.journal.log[j][2].act.AssignDriver? && db.journal.log[j][3].act.Arrive?
            && db.journal.log[j][4].act.Start? && db.journal.log[j][5].act.Complete?
    ensures forall q | q in db.core.proofs && db.core.proofs[q].job == j :: q == p
  {
    var ix :| Holds(db, ix);
    assert JobOk(db.core, ix, j);
    a, p := ix.staff[j], ix.proof[j];
    assert AssignmentOk(db.core, ix, a);
    forall q | q in db.core.proofs && db.core.proofs[q].job == j ensures q == p { assert ProofOk(db.core, ix, q); }
    assert ProofOk(db.core, ix, p);
    assert JournalOk(db.core, ix, db.journal, j);
    var log := db.journal.log[j];
    assert Worker(db.core, ix, j) == Some(db.core.assignments[a].driver);
    hide Holds, JobOk, AssignmentOk, ProofOk;
    DeliveryActs(j, log);
  }

  /** The only log of a Delivery that ends delivered. */
  lemma DeliveryActs(j: Job, log: seq<Transition>)
    requires j.Delivery? && Chain(j, log) && Last(log).to.Completed? && |log| == 6
    ensures log[2].act.AssignDriver? && log[3].act.Arrive? && log[4].act.Start? && log[5].act.Complete?
  {
    assert Legal(j, log[5].act, log[4].to, log[5].to);
    assert Legal(j, log[4].act, log[3].to, log[4].to);
    assert Legal(j, log[3].act, log[2].to, log[3].to);
    assert Legal(j, log[2].act, log[1].to, log[2].to);
  }
}
