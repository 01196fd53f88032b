/** What a whole sweep achieves: which offers it expires, how many it reports, and what can end it early. */
module Sweeps {
  import opened Basics
  import opened Tables
  import opened Events
  import opened Commitments
  import opened Steps
  import R = Ranking
  import opened Queries
  import opened Commands
  import opened CommandProofs
  import opened MatchingSafety
  import opened Retries
  import opened Runs
  import opened Repositories
  import opened Parcels
  import opened Idempotency
  import opened Guards
  import opened Rematching
  import opened Searches
  import opened Outcomes
  import opened DeliveryOutcomes

  function ExpiredOffers(c: Core): set<Id> {
    set o | o in c.offers && c.offers[o].status.Expired?
  }

  /** A pending offer of the given kind of aggregate whose deadline has come. */
  predicate DueOffer(c: Core, o: Id, now: Time) {
    o in c.offers && c.offers[o].status.Pending? && c.offers[o].expiresAt <= now
  }

  /** The offers of c are there as before, but for o if it has expired; what is new has not. */
  ghost predicate OnlyExpires(c: Core, c': Core, o: Id, expired: bool) {
    && ExpiredOffers(c') == ExpiredOffers(c) + (if expired then {o} else {})
    && (expired ==> o !in ExpiredOffers(c))
    && forall p | p in c.offers && (p != o || !expired) :: p in c'.offers && c'.offers[p] == c.offers[p]
  }

  // ---- Trips

  /** Rows with a negative distance or age make the ranking refuse its input. */
  predicate Misread(found: seq<R.Candidate>) {
    exists x | x in found :: x.distance < 0.0 || x.freshness < 0.0
  }

  lemma SearchOffers(
      db: Db, db1: Db, db': Db, j: Job, excluded: Option<Id>, now: Time, found: seq<R.Candidate>, kind: EventKind,
      act: Act, actor: Option<Id>)
    requires Known(db1, j) && db1.core.nextId + 1 !in db1.core.offers
    requires Outcomes.SearchEnds(db, db1, db', j, excluded, now, found, kind, act, actor)
    ensures ExpiredOffers(db'.core) == ExpiredOffers(db1.core)
    ensures forall p | p in db1.core.offers :: p in db'.core.offers && db'.core.offers[p] == db1.core.offers[p]
  {
    hide MaxAttempt, NoneMayBeAsked, Best, AskedFor, GivenUp;
    if x :| Best(db.core, j, excluded, found, x) && AsksFor(db, db1, db', j, x.driver, now, kind) {
      AskedForOffers(db1, j, x.driver, now, MaxAttempt(db.core, j) + 1, kind);
    } else {
      GivenUpOffers(db1, j, act, actor);
    }
  }

  lemma AskedForOffers(db: Db, j: Job, d: Id, now: Time, attempt: nat, kind: EventKind)
    requires Known(db, j) && d in db.core.work && db.core.nextId + 1 !in db.core.offers
    ensures var c' := AskedFor(db, j, d, now, attempt, kind).core;
            && ExpiredOffers(c') == ExpiredOffers(db.core)
            && forall p | p in db.core.offers :: p in c'.offers && c'.offers[p] == db.core.offers[p]
  {
  }

  lemma GivenUpOffers(db: Db, j: Job, act: Act, actor: Option<Id>)
    requires Known(db, j)
    ensures GivenUp(db, j, act, actor).core.offers == db.core.offers
  {
  }

  lemma ExpiryOffers(db: Db, o: Id)
    requires OfferRows(db.core, o) && Known(db, db.core.offers[o].job) && db.core.offers[o].status.Pending?
    requires db.core.nextId + 1 !in db.core.offers
    ensures var c := AfterExpiry(db, o).core;
            OnlyExpires(db.core, c, o, true) && c.nextId + 1 !in c.offers
  {
  }

  /** One round expires its offer, or changes nothing. */
  lemma RoundExpires(db: Db, round: Round)
    requires Inv(db)
    ensures var cmd := SweepOf(round);
            && OnlyExpires(db.core, Step(db, cmd).core, round.offer, Answer(db, cmd) == Ok(SweepResponse(true)))
            && (Answer(db, cmd).Ok? || (Answer(db, cmd) == Thrown(RankingInvalid) && Misread(round.found)))
            && (Answer(db, cmd).Ok? && !round.locked && DueOffer(db.core, round.offer, round.now)
                && db.core.offers[round.offer].job.Trip?
                ==> Answer(db, cmd) == Ok(SweepResponse(true)))
  {
    hide Inv, Step, Answer, Outcomes.SearchEnds, AfterExpiry, Misread;
    var cmd := SweepOf(round);
    IdsBelow(db);
    RoundFails(db, cmd);
    if Answer(db, cmd).Ok? {
      SweepOutcome(db, cmd);
      if Answer(db, cmd) == Ok(SweepResponse(true)) {
        var f, db1 := db.core.offers[cmd.offer], AfterExpiry(db, cmd.offer);
        ExpiryOffers(db, cmd.offer);
        SearchOffers(db, db1, Step(db, cmd), f.job, Some(f.driver), cmd.now, cmd.found, OfferReassigned, ExpireNoReassignment, None);
      }
    }
  }

  lemma RoundFails(db: Db, cmd: Command)
    requires Inv(db) && cmd.SweepTrip?
    ensures Answer(db, cmd).Ok? || (Answer(db, cmd) == Thrown(RankingInvalid) && Misread(cmd.found))
    ensures !Answer(db, cmd).Ok? ==> Step(db, cmd) == db
  {
    hide Inv, Joined, Sound, Asked, Lapse, Search, NextDriver;
    var ix := Executed(db, cmd);
    ReceiptsStay(db, cmd);
    OthersNeverClash(db, cmd);
    FailureKeeps(db, cmd);
    if !Answer(db, cmd).Ok? {
      var f := db.core.offers[cmd.offer];
      LapseKeeps(db, ix, cmd.offer);
      RefusedSearch(Lapse(db, cmd.offer), f.job, Some(f.driver), cmd.now, cmd.found, OfferReassigned, ExpireNoReassignment, None);
    }
  }

  lemma RefusedSearch(
      db: Db, j: Job, excluded: Option<Id>, now: Time, found: seq<R.Candidate>, kind: EventKind, act: Act, actor: Option<Id>)
    requires Known(db, j) && j.Trip? && Search(db, j, excluded, now, found, kind, act, actor).None?
    requires !NextDriver(db, j, excluded, found, kind).Clash?
    ensures Misread(found)
  {
    hide Search, NextDriver, MaxAttempt, Best, NoneMayBeAsked, Free;
    SearchesIff(db, j, excluded, now, found, kind, act, actor);
    SearchChooses(db, j, excluded, found, kind);
  }

  /**
   * A sweep reports as many offers as it expires. Unless a round's rows have a negative distance or age, no
   * pending Trip offer on its list is left that was due and not held by another transaction.
   */
  lemma {:induction false} SweepExpires(db: Db, rounds: seq<Round>)
    requires Inv(db)
    ensures var (db', processed, failure) := Swept(db, rounds);
            && ExpiredOffers(db.core) <= ExpiredOffers(db'.core)
            && |ExpiredOffers(db'.core)| == |ExpiredOffers(db.core)| + processed
            && (failure.None? ==>
                  forall i | 0 <= i < |rounds| && !rounds[i].locked && DueOffer(db.core, rounds[i].offer, rounds[i].now)
                             && db.core.offers[rounds[i].offer].job.Trip? ::
                    rounds[i].offer in ExpiredOffers(db'.core))
            && (failure.Some? ==> failure.value.RankingInvalid? && exists i :: 0 <= i < |rounds| && Misread(rounds[i].found))
    decreases |rounds|
  {
    hide Inv, OnlyExpires, Misread, ExpiredOffers;
    if rounds != [] {
      var round, cmd, rest := rounds[0], SweepOf(rounds[0]), rounds[1..];
      RoundExpires(db, round);
      RoundCounts(db.core, Step(db, cmd).core, round.offer, Answer(db, cmd) == Ok(SweepResponse(true)));
      AppliedIs(db, cmd);
      if Answer(db, cmd).Ok? {
        SweepExpires(Step(db, cmd), rest);
        forall i | 0 <= i < |rounds| && !rounds[i].locked && DueOffer(db.core, rounds[i].offer, rounds[i].now)
                   && db.core.offers[rounds[i].offer].job.Trip? && Swept(db, rounds).2.None?
          ensures rounds[i].offer in ExpiredOffers(Swept(db, rounds).0.core)
        {
          if i > 0 {
            assert rest[i - 1] == rounds[i];
            StillDue(db.core, Step(db, cmd).core, round.offer, Answer(db, cmd) == Ok(SweepResponse(true)), rounds[i].offer);
          }
        }
        if Swept(db, rounds).2.Some? {
          var i :| 0 <= i < |rest| && Misread(rest[i].found);
          assert rounds[i + 1] == rest[i];
        }
      }
    }
  }

  lemma AppliedIs(db: Db, cmd: Command)
    requires Inv(db)
    ensures Applied(db, cmd) == (Step(db, cmd), Answer(db, cmd))
  {
    hide Inv, Joined, Apply;
    InvJoined(db);
  }

  lemma RoundCounts(c: Core, c': Core, o: Id, expired: bool)
    requires OnlyExpires(c, c', o, expired)
    ensures ExpiredOffers(c) <= ExpiredOffers(c') && (expired ==> o in ExpiredOffers(c'))
    ensures |ExpiredOffers(c')| == |ExpiredOffers(c)| + if expired then 1 else 0
  {
  }

  /** An offer that is due before a round has expired or is the same after it. */
  lemma StillDue(c: Core, c': Core, o: Id, expired: bool, p: Id)
    requires OnlyExpires(c, c', o, expired) && p in c.offers
    ensures p in ExpiredOffers(c') || (p in c'.offers && c'.offers[p] == c.offers[p])
  {
  }

  // ---- Deliveries

  lemma DeliveryRoundExpires(db: Db, cmd: Command)
    requires Inv(db) && cmd.SweepDelivery?
    ensures Answer(db, cmd).Ok?
    ensures OnlyExpires(db.core, Step(db, cmd).core, cmd.offer, Answer(db, cmd) == Ok(SweepResponse(true)))
    ensures !cmd.locked && DueOffer(db.core, cmd.offer, cmd.now) && db.core.offers[cmd.offer].job.Delivery?
            ==> Answer(db, cmd) == Ok(SweepResponse(true))
  {
    hide Inv, Step, Answer;
    SweepDeliveryOutcome(db, cmd);
  }

  /**
   * The same for Deliveries: the count is of the offers expired, and none is left that was due and not held.
   */
  lemma {:induction false} ParcelSweepExpires(db: Db, rounds: seq<Due>)
    requires Inv(db)
    ensures var (db', processed) := SweptParcels(db, rounds);
            && ExpiredOffers(db.core) <= ExpiredOffers(db'.core)
            && |ExpiredOffers(db'.core)| == |ExpiredOffers(db.core)| + processed
            && forall i | 0 <= i < |rounds| && !rounds[i].locked && DueOffer(db.core, rounds[i].offer, rounds[i].now)
                          && db.core.offers[rounds[i].offer].job.Delivery? ::
                 rounds[i].offer in ExpiredOffers(db'.core)
    decreases |rounds|
  {
    hide Inv, OnlyExpires, ExpiredOffers;
    if rounds != [] {
      var cmd, rest := SweepDelivery(rounds[0].offer, rounds[0].locked, rounds[0].now), rounds[1..];
      var expired := Answer(db, cmd) == Ok(SweepResponse(true));
      DeliveryRoundExpires(db, cmd);
      RoundCounts(db.core, Step(db, cmd).core, cmd.offer, expired);
      AppliedIs(db, cmd);
      ParcelSweepExpires(Step(db, cmd), rest);
      forall i | 0 <= i < |rounds| && !rounds[i].locked && DueOffer(db.core, rounds[i].offer, rounds[i].now)
                 && db.core.offers[rounds[i].offer].job.Delivery?
        ensures rounds[i].offer in ExpiredOffers(SweptParcels(db, rounds).0.core)
      {
        if i > 0 {
          assert rest[i - 1] == rounds[i];
          StillDue(db.core, Step(db, cmd).core, cmd.offer, expired, rounds[i].offer);
        }
      }
    }
  }
}
