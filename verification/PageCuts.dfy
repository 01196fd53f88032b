/**
 * A run after which a page of the relay ends inside a transaction: ninety-nine Trips are booked, and
 * the match of the last one starts and finds nobody.
 */
module PageCuts {
  import opened Basics
  import opened Fare
  import opened Tables
  import opened Events
  import opened Journals
  import opened Steps
  import R = Ranking
  import opened Queries
  import opened Commands
  import opened Retries
  import opened Rematching
  import opened Runs
  import opened Relay
  import Scenarios

  const CREATED := Event(CreatedEvent, 0, Some(Requested), {})
  const MATCHING := Event(MatchingStarted, 1, Some(Matching), {})
  const NOBODY := Event(NoDriverEvent, 2, Some(NoDriverAvailable), {})

  // ---- The bookings

  /** Customer i has issued quote 2 * i and booked Trip 2 * i + 1 with it, for all i below n. */
  function Many(n: nat): Db {
    if n == 0 then EmptyDb() else Scenarios.Booked(Scenarios.Quoted(Many(n - 1), n - 1), n - 1)
  }

  ghost predicate Bookings(db: Db, n: nat) {
    && db.core.nextId == 2 * n && db.core.offers == map[]
    && (forall j :: j in db.core.jobs <==> j.Trip? && j.id < 2 * n && j.id % 2 == 1)
    && db.journal.log.Keys == db.core.jobs.Keys && db.journal.outbox.Keys == db.core.jobs.Keys
    && (forall j | j in db.core.jobs ::
          && db.core.jobs[j].customer == j.id / 2 && db.core.jobs[j].state.Requested? && db.core.jobs[j].version == 0
          && db.journal.outbox[j] == [CREATED])
    && (forall k | k in db.receipts :: k.operation.CreateTripOp? && k.actor < n)
  }

  lemma BookedRows(db: Db, n: nat)
    ensures var db', j := Scenarios.Booked(Scenarios.Quoted(db, n), n), Trip(db.core.nextId + 1);
            && db'.core.nextId == db.core.nextId + 2 && db'.core.offers == db.core.offers
            && j in db'.core.jobs && db'.core.jobs == db.core.jobs[j := db'.core.jobs[j]]
            && db'.core.jobs[j].customer == n && db'.core.jobs[j].state.Requested? && db'.core.jobs[j].version == 0
            && db'.journal.log.Keys == db.journal.log.Keys + {j}
            && db'.journal.outbox == db.journal.outbox[j := [CREATED]]
    ensures forall k | k in Scenarios.Booked(Scenarios.Quoted(db, n), n).receipts ::
              k in db.receipts || (k.operation.CreateTripOp? && k.actor == n)
  {
  }

  lemma BookOne(db: Db, n: nat)
    requires Bookings(db, n)
    ensures Bookings(Scenarios.Booked(Scenarios.Quoted(db, n), n), n + 1)
  {
    hide Scenarios.Booked, Scenarios.Quoted;
    BookedRows(db, n);
  }

  lemma BookReaches(db: Db, n: nat)
    requires Reachable(db) && Bookings(db, n)
    ensures Reachable(Scenarios.Booked(Scenarios.Quoted(db, n), n))
  {
    hide Inv, Leads, Bookings, Scenarios.Booked, Scenarios.Quoted;
    EmptyHolds();
    FreeToBook(db, n);
    Scenarios.ReachBooked(EmptyDb(), db, n);
  }

  lemma EmptyReached()
    ensures Reachable(EmptyDb()) && Bookings(EmptyDb(), 0)
  {
    hide Inv, Leads;
    EmptyHolds();
    LeadsSelf(EmptyDb());
  }

  lemma {:induction false} ReachMany(n: nat)
    ensures Reachable(Many(n)) && Bookings(Many(n), n)
  {
    hide Reachable, Bookings, Scenarios.Booked, Scenarios.Quoted;
    if n == 0 {
      EmptyReached();
    } else {
      ReachMany(n - 1);
      BookOne(Many(n - 1), n - 1);
      BookReaches(Many(n - 1), n - 1);
    }
  }

  lemma FreeToBook(db: Db, n: nat)
    requires Bookings(db, n)
    ensures ReceiptKey(n, CreateTripOp, db.core.nextId) !in db.receipts
    ensures forall j | j in db.core.jobs :: db.core.jobs[j].customer != n
  {
  }

  // ---- The last match

  function Starting(n: nat): Command
    requires n > 0
  {
    StartTrip(n - 1, 2 * n - 1, 0, 0, 0, [])
  }

  /** The match starts and finds nobody, in one transaction. */
  lemma NobodyFound(db: Db, n: nat)
    requires n > 0 && Bookings(db, n) && Joined(db)
    ensures var j := Trip(2 * n - 1);
            j in db.journal.outbox
            && Apply(db, Starting(n)).0.journal.outbox == db.journal.outbox[j := [CREATED, MATCHING, NOBODY]]
  {
    hide Joined, MaxAttempt, Untold, PendingOffer, Matched, R.Rank, NextDriver, BeginMatching, Exhaust;
    MatchOutbox(db, n);
    NobodyToAsk(BeginMatching(db, Trip(2 * n - 1), None), Trip(2 * n - 1));
  }

  lemma MatchOutbox(db: Db, n: nat)
    requires n > 0 && Bookings(db, n)
    ensures Known(db, Trip(2 * n - 1))
    ensures var j := Trip(2 * n - 1);
            var db1 := BeginMatching(db, j, None);
            && Known(db1, j) && PendingOffer(db1.core, j).None?
            && Exhaust(db1, j, ExhaustMatching, None).journal.outbox == db.journal.outbox[j := [CREATED, MATCHING, NOBODY]]
  {
    hide PendingOffer;
    var j := Trip(2 * n - 1);
    assert j in db.core.jobs;
    UnaskedPending(BeginMatching(db, j, None).core, j);
    assert [CREATED] + [MATCHING] + [NOBODY] == [CREATED, MATCHING, NOBODY];
  }

  lemma NobodyToAsk(db: Db, j: Job)
    requires Known(db, j)
    ensures NextDriver(db, j, None, [], OfferCreated) == Nobody
  {
    hide MaxAttempt, Untold;
    assert R.Rank([], R.LOCATION_FRESHNESS_SECONDS) == Some([]);
  }

  // ---- The outbox

  /** The rows are the whole outbox. */
  ghost predicate IsOutbox(rows: seq<Row>, n: Journal) {
    && FromOutbox(rows, n)
    && forall j, at: nat | j in n.outbox && at < |n.outbox[j]| :: HasRow(rows, j, at)
  }

  predicate HasRow(rows: seq<Row>, j: Job, at: nat) {
    exists i :: 0 <= i < |rows| && rows[i].job == j && rows[i].at == at
  }

  /** The rows of the last transaction share its time, and the terminal one has the lower id. */
  function Backlog(n: nat): (rows: seq<Row>)
    requires n > 0
    ensures |rows| == n + 2
  {
    seq(n, (i: nat) => Row(Trip(2 * i + 1), CREATED, i, i, 0))
    + [Row(Trip(2 * n - 1), NOBODY, n, n, 2), Row(Trip(2 * n - 1), MATCHING, n, n + 1, 1)]
  }

  lemma BacklogFrom(db: Db, n: nat, journal: Journal)
    requires n > 0 && Bookings(db, n) && Trip(2 * n - 1) in db.journal.outbox
    requires journal.outbox == db.journal.outbox[Trip(2 * n - 1) := [CREATED, MATCHING, NOBODY]]
    ensures FromOutbox(Backlog(n), journal)
  {
    hide Backlog;
    BacklogRows(n);
  }

  lemma BacklogIsOutbox(db: Db, n: nat, journal: Journal)
    requires n > 0 && Bookings(db, n) && Trip(2 * n - 1) in db.journal.outbox
    requires journal.outbox == db.journal.outbox[Trip(2 * n - 1) := [CREATED, MATCHING, NOBODY]]
    ensures IsOutbox(Backlog(n), journal)
  {
    hide Backlog, FromOutbox;
    var rows := Backlog(n);
    BacklogRows(n);
    BacklogFrom(db, n, journal);
    forall j, at: nat | j in journal.outbox && at < |journal.outbox[j]| ensures HasRow(rows, j, at) {
      if at == 0 {
        assert rows[j.id / 2].job == j;
      } else if at == 2 {
        assert rows[n].job == j;
      } else {
        assert rows[n + 1].job == j;
      }
    }
  }

  lemma BacklogRows(n: nat)
    requires n > 0
    ensures var rows := Backlog(n);
            && |rows| == n + 2
            && (forall i | 0 <= i < n :: rows[i] == Row(Trip(2 * i + 1), CREATED, i, i, 0))
            && rows[n] == Row(Trip(2 * n - 1), NOBODY, n, n, 2) && rows[n + 1] == Row(Trip(2 * n - 1), MATCHING, n, n + 1, 1)
  {
  }

  lemma BacklogOrder(c: Client, n: nat)
    requires n > 0 && c.actor.Some?
    ensures var rows, j := Backlog(n), Trip(2 * n - 1);
            && |rows| == n + 2 && QueryOrder(rows) && StandsAt(Cursor(-1, 0), rows, 0) && Spared(c, rows, j)
            && rows[n].job == rows[n + 1].job == j && TerminalKind(rows[n].event.kind)
  {
  }

  /** Two polls that see all of it cut it after row n when that is the hundredth. */
  lemma BacklogCuts(n: nat)
    requires n + 1 == 100
    ensures Cuts(0, [n + 2, n + 2]) == [n + 1, n + 2] && Stop(0, [n + 1, n + 2]) == n + 2
  {
    var vs, cuts := [n + 2, n + 2], [n + 1, n + 2];
    assert vs[1..] == [n + 2] && [n + 2][1..] == [] && cuts[1..] == [n + 2];
    assert Cuts(n + 1, [n + 2]) == [n + 2] + Cuts(n + 2, []);
    assert Stop(n + 1, [n + 2]) == Stop(n + 2, []);
  }

  /**
   * A run reaches a database whose whole outbox, in an order that it may have, two polls relay without
   * the row that starts the last match: the subscriber is cut off by the terminal row before it.
   */
  lemma SplitBatchLoses(n: nat, c: Client) returns (db: Db)
    requires n + 1 == 100 && c.actor.Some? && Trip(2 * n - 1) in c.jobs
    ensures !HoldsAll(c, Polled(c, Cursor(-1, 0), Backlog(n), [n + 2, n + 2]), Backlog(n), Trip(2 * n - 1))
    ensures QueryOrder(Backlog(n)) && StandsAt(Cursor(-1, 0), Backlog(n), 0)
    ensures IsOutbox(Backlog(n), db.journal) && Reachable(db)
  {
    hide Inv, Reachable, Bookings, Many, Backlog, IsOutbox, FromOutbox, QueryOrder, StandsAt, Spared, HoldsAll, Polled, Cuts,
         Stop;
    var rows, cuts := Backlog(n), [n + 1, n + 2];
    db := LastMatch(n);
    BacklogOrder(c, n);
    BacklogCuts(n);
    WholeIsFrom(rows, db.journal);
    ReachableInv(db);
    PollingReceivesIff(db, c, Cursor(-1, 0), rows, [n + 2, n + 2], Trip(2 * n - 1));
    assert rows[..n + 2] == rows;
    assert cuts[0] in cuts;
  }

  lemma LastMatch(n: nat) returns (db: Db)
    requires n > 0
    ensures IsOutbox(Backlog(n), db.journal) && Reachable(db)
  {
    hide Inv, Leads, Joined, Bookings, Many, Backlog, IsOutbox, Apply, Step, Starting;
    ReachMany(n);
    ReachableInv(Many(n));
    EmptyHolds();
    LeadsOn(EmptyDb(), Many(n), Starting(n));
    db := Step(Many(n), Starting(n));
    StepIsApply(Many(n), Starting(n));
    NobodyFound(Many(n), n);
    BacklogIsOutbox(Many(n), n, db.journal);
  }

  lemma StepIsApply(db: Db, cmd: Command)
    requires Inv(db)
    ensures Joined(db) && Step(db, cmd) == Apply(db, cmd).0 && Inv(Step(db, cmd))
  {
    hide Inv, Joined, Apply;
    InvJoined(db);
  }

  lemma WholeIsFrom(rows: seq<Row>, n: Journal)
    requires IsOutbox(rows, n)
    ensures FromOutbox(rows, n)
  {
    hide FromOutbox;
  }
}
