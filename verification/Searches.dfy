/**
 * Whom a search for a Driver asks, said of the rows of the candidate query: their distances, the ages
 * of their locations, and the rows of the matching tables.
 */
module Searches {
  import opened Basics
  import Sorting
  import opened Tables
  import opened Steps
  import R = Ranking
  import opened Queries
  import opened Commands
  import opened CommandProofs

  /**
   * The Driver is available, has no active Trip reservation, has not been asked for this Trip, and is
   * not the one who has just answered.
   */
  predicate Free(c: Core, j: Job, excluded: Option<Id>, d: Id) {
    && excluded != Some(d)
    && d in c.work && c.work[d].state.Available?
    && (forall r | r in c.reservations && c.reservations[r].driver == d && c.reservations[r].job.Trip? ::
          !c.reservations[r].status.Active?)
    && (forall o | o in c.offers && c.offers[o].job == j :: c.offers[o].driver != d)
  }

  /** A free Driver's row that no other claim conflicts with and whose location is at most 15 seconds old. */
  predicate MayBeAsked(c: Core, j: Job, excluded: Option<Id>, x: R.Candidate) {
    Free(c, j, excluded, x.driver) && !x.conflict && x.freshness <= 15.0
  }

  /** x is nearer, or as near with a fresher location, or alike in both with no greater id. */
  predicate NoWorse(x: R.Candidate, y: R.Candidate) {
    x.distance < y.distance
    || (x.distance == y.distance
        && (x.freshness < y.freshness || (x.freshness == y.freshness && x.driver <= y.driver)))
  }

  /** The row that a search for the Trip asks: none of the others is better. */
  predicate Best(c: Core, j: Job, excluded: Option<Id>, found: seq<R.Candidate>, x: R.Candidate) {
    x in found && MayBeAsked(c, j, excluded, x) && forall y | y in found && MayBeAsked(c, j, excluded, y) :: NoWorse(x, y)
  }

  predicate NoneMayBeAsked(c: Core, j: Job, excluded: Option<Id>, found: seq<R.Candidate>) {
    forall x | x in found :: !MayBeAsked(c, j, excluded, x)
  }

  /** A free Driver's row has a negative distance or age. */
  predicate Unrankable(c: Core, j: Job, excluded: Option<Id>, found: seq<R.Candidate>) {
    exists x | x in found :: Free(c, j, excluded, x.driver) && (x.distance < 0.0 || x.freshness < 0.0)
  }

  // ---- The candidate rows

  lemma FreeIff(c: Core, j: Job, excluded: Option<Id>, d: Id)
    requires j.Trip?
    ensures Claimable(c, j, excluded, d) <==> Free(c, j, excluded, d)
  {
  }

  lemma {:induction false} CandidateFrom(c: Core, j: Job, excluded: Option<Id>, found: seq<R.Candidate>, x: R.Candidate)
    requires x in Candidates(c, j, excluded, found)
    ensures exists y :: y in found && Claimable(c, j, excluded, y.driver) && x == y.(eligible := true)
  {
    hide Claimable;
    if Claimable(c, j, excluded, found[0].driver) && x == found[0].(eligible := true) {
    } else {
      CandidateFrom(c, j, excluded, found[1..], x);
    }
  }

  lemma {:induction false} CandidateOf(c: Core, j: Job, excluded: Option<Id>, found: seq<R.Candidate>, y: R.Candidate)
    requires y in found && Claimable(c, j, excluded, y.driver)
    ensures y.(eligible := true) in Candidates(c, j, excluded, found)
  {
    hide Claimable;
    if y != found[0] { CandidateOf(c, j, excluded, found[1..], y); }
  }

  /** The ranking refuses its input exactly for an unrankable row. */
  lemma RefusedIff(c: Core, j: Job, excluded: Option<Id>, found: seq<R.Candidate>)
    requires j.Trip?
    ensures R.Rank(Candidates(c, j, excluded, found), 15.0).None? <==> Unrankable(c, j, excluded, found)
  {
    hide Candidates, Free, Claimable;
    var rows := Candidates(c, j, excluded, found);
    if R.Rank(rows, 15.0).None? {
      var i :| 0 <= i < |rows| && !R.ValidCandidate(rows[i]);
      CandidateFrom(c, j, excluded, found, rows[i]);
      var y :| y in found && Claimable(c, j, excluded, y.driver) && rows[i] == y.(eligible := true);
      FreeIff(c, j, excluded, y.driver);
    }
    if Unrankable(c, j, excluded, found) {
      var x :| x in found && Free(c, j, excluded, x.driver) && (x.distance < 0.0 || x.freshness < 0.0);
      FreeIff(c, j, excluded, x.driver);
      CandidateOf(c, j, excluded, found, x);
      var i :| 0 <= i < |rows| && rows[i] == x.(eligible := true);
      assert !R.ValidCandidate(rows[i]);
    }
  }

  /** The ranked rows without a conflict are those that may be asked. */
  lemma RankedRow(c: Core, j: Job, excluded: Option<Id>, found: seq<R.Candidate>, x: R.Candidate)
    requires j.Trip? && R.Rank(Candidates(c, j, excluded, found), 15.0).Some?
    ensures x in R.Rank(Candidates(c, j, excluded, found), 15.0).value && !x.conflict ==>
              exists y :: y in found && MayBeAsked(c, j, excluded, y) && x == y.(eligible := true)
    ensures x in found && MayBeAsked(c, j, excluded, x) ==>
              x.(eligible := true) in R.Rank(Candidates(c, j, excluded, found), 15.0).value
  {
    hide Candidates, Free, Claimable, R.Rank;
    var rows := Candidates(c, j, excluded, found);
    var ranked := R.Rank(rows, 15.0).value;
    R.RankIsSortedSelection(rows, 15.0);
    if x in ranked && !x.conflict {
      assert multiset(ranked)[x] > 0 && multiset(rows)[x] > 0;
      CandidateFrom(c, j, excluded, found, x);
      var y :| y in found && Claimable(c, j, excluded, y.driver) && x == y.(eligible := true);
      FreeIff(c, j, excluded, y.driver);
      assert MayBeAsked(c, j, excluded, y);
    }
    if x in found && MayBeAsked(c, j, excluded, x) {
      FreeIff(c, j, excluded, x.driver);
      CandidateOf(c, j, excluded, found, x);
      var x' := x.(eligible := true);
      assert multiset(rows)[x'] > 0;
      assert multiset(ranked)[x'] > 0;
    }
  }

  /** The first row without a conflict of a ranked list, and there is one unless all have. */
  lemma {:induction false} FirstOf(rows: seq<R.Candidate>) returns (k: nat)
    ensures k <= |rows| && (forall i | 0 <= i < k :: rows[i].conflict)
    ensures FirstClaim(rows) == if k < |rows| then Some(rows[k].driver) else None
    ensures k < |rows| ==> !rows[k].conflict
  {
    k := 0;
    if rows != [] && rows[0].conflict {
      var n := FirstOf(rows[1..]);
      k := n + 1;
      assert forall i | 0 < i < |rows| :: rows[i] == rows[1..][i - 1];
    }
  }

  /**
   * A search that chooses a Driver has an attempt left and asks the best row's Driver; one that finds
   * nobody has none left, or there is nobody who may be asked; and the ranking refuses its input only
   * for a negative distance or age.
   */
  lemma SearchChooses(db: Db, j: Job, excluded: Option<Id>, found: seq<R.Candidate>, kind: EventKind)
    requires Known(db, j) && j.Trip?
    ensures match NextDriver(db, j, excluded, found, kind)
            case Chosen(d) =>
              MaxAttempt(db.core, j) < 3 && exists x :: Best(db.core, j, excluded, found, x) && x.driver == d
            case Nobody => MaxAttempt(db.core, j) >= 3 || NoneMayBeAsked(db.core, j, excluded, found)
            case RankingFails => MaxAttempt(db.core, j) < 3 && Unrankable(db.core, j, excluded, found)
            case Clash => MaxAttempt(db.core, j) < 3 && !NoneMayBeAsked(db.core, j, excluded, found)
    ensures MaxAttempt(db.core, j) < 3 && Unrankable(db.core, j, excluded, found)
            ==> NextDriver(db, j, excluded, found, kind).RankingFails?
  {
    hide MaxAttempt, Untold, Candidates, MayBeAsked, Unrankable, FirstClaim, R.Rank;
    var rows := Candidates(db.core, j, excluded, found);
    RefusedIff(db.core, j, excluded, found);
    if R.Rank(rows, 15.0).Some? {
      var ranked := R.Rank(rows, 15.0).value;
      var k := FirstOf(ranked);
      if k < |ranked| {
        RankedRow(db.core, j, excluded, found, ranked[k]);
        var x :| x in found && MayBeAsked(db.core, j, excluded, x) && ranked[k] == x.(eligible := true);
        BestIs(db.core, j, excluded, found, ranked, k, x);
      } else {
        forall y | y in found ensures !MayBeAsked(db.core, j, excluded, y) {
          RankedRow(db.core, j, excluded, found, y);
          if MayBeAsked(db.core, j, excluded, y) {
            var i :| 0 <= i < |ranked| && ranked[i] == y.(eligible := true);
            Unconflicted(db.core, j, excluded, y);
          }
        }
      }
    }
  }

  lemma Unconflicted(c: Core, j: Job, excluded: Option<Id>, y: R.Candidate)
    requires MayBeAsked(c, j, excluded, y)
    ensures !y.conflict
  {
  }

  lemma BestIs(
      c: Core, j: Job, excluded: Option<Id>, found: seq<R.Candidate>, ranked: seq<R.Candidate>, k: nat, x: R.Candidate)
    requires j.Trip? && R.Rank(Candidates(c, j, excluded, found), 15.0) == Some(ranked)
    requires k < |ranked| && (forall i | 0 <= i < k :: ranked[i].conflict)
    requires x in found && MayBeAsked(c, j, excluded, x) && ranked[k] == x.(eligible := true)
    ensures Best(c, j, excluded, found, x)
  {
    hide Candidates, MayBeAsked, R.Rank;
    R.RankIsSortedSelection(Candidates(c, j, excluded, found), 15.0);
    forall y | y in found && MayBeAsked(c, j, excluded, y) ensures NoWorse(x, y) {
      RankedRow(c, j, excluded, found, y);
      Unconflicted(c, j, excluded, y);
      var i :| 0 <= i < |ranked| && ranked[i] == y.(eligible := true);
      assert i >= k;
      if i > k { assert R.NotAfter(ranked[k], ranked[i]); }
    }
  }

  // ---- A Delivery's search

  /** The first row, in the order of the query, of an available Driver and without a conflict. */
  predicate FirstAvailable(c: Core, found: seq<R.Candidate>, k: nat) {
    && k < |found| && found[k].driver in c.work && c.work[found[k].driver].state.Available? && !found[k].conflict
    && forall i | 0 <= i < k :: !(found[i].driver in c.work && c.work[found[i].driver].state.Available? && !found[i].conflict)
  }

  lemma {:induction false} DeliveryChooses(c: Core, j: Job, found: seq<R.Candidate>)
    requires j.Delivery?
    ensures match FirstClaim(Candidates(c, j, None, found))
            case Some(d) => exists k: nat :: FirstAvailable(c, found, k) && found[k].driver == d
            case None =>
              forall i | 0 <= i < |found| ::
                !(found[i].driver in c.work && c.work[found[i].driver].state.Available? && !found[i].conflict)
    decreases |found|
  {
    if found != [] {
      var x, rest := found[0], found[1..];
      DeliveryChooses(c, j, rest);
      assert forall i | 0 < i < |found| :: found[i] == rest[i - 1];
      var tail := Candidates(c, j, None, rest);
      if Claimable(c, j, None, x.driver) {
        assert Candidates(c, j, None, found)[1..] == tail;
        if !x.conflict { assert FirstAvailable(c, found, 0); }
      }
      if (!Claimable(c, j, None, x.driver) || x.conflict) && FirstClaim(tail).Some? {
        var k: nat :| FirstAvailable(c, rest, k) && rest[k].driver == FirstClaim(tail).value;
        assert FirstAvailable(c, found, k + 1);
      }
    }
  }
}
