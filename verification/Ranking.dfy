/**
 * The order in which candidates are asked (apps/api/src/dispatch/dispatch-ranking.ts).
 * Distances and ages are the finite values of the doubles; their differences have the right sign.
 */
module Ranking {
  import opened Basics
  import opened Sorting
  import opened Tables

  /** `conflict` is what INSERT ... ON CONFLICT DO NOTHING will find when this row is claimed. */
  datatype Candidate = Candidate(driver: Id, distance: real, freshness: real, eligible: bool, conflict: bool)

  const LOCATION_FRESHNESS_SECONDS := 15.0

  predicate ValidCandidate(c: Candidate) {
    c.distance >= 0.0 && c.freshness >= 0.0
  }

  /** compareCandidates(a, b) <= 0. */
  predicate NotAfter(a: Candidate, b: Candidate) {
    if a.distance != b.distance then a.distance < b.distance
    else if a.freshness != b.freshness then a.freshness < b.freshness
    else a.driver <= b.driver
  }

  function Fresh(s: seq<Candidate>, limit: real): seq<Candidate> {
    if s == [] then []
    else if s[0].eligible && s[0].freshness <= limit then [s[0]] + Fresh(s[1..], limit)
    else Fresh(s[1..], limit)
  }

  /** rankEligibleDriverCandidates; None is a thrown DispatchRankingInputError. */
  function Rank(s: seq<Candidate>, limit: real): Option<seq<Candidate>> {
    if limit < 0.0 || exists i :: 0 <= i < |s| && !ValidCandidate(s[i]) then None
    else Some(Sorted(Fresh(s, limit), NotAfter))
  }

  ghost predicate DistinctDrivers(s: seq<Candidate>) {
    forall i, k | 0 <= i < k < |s| :: s[i].driver != s[k].driver
  }

  lemma {:induction false} FreshHas(s: seq<Candidate>, limit: real)
    ensures forall c :: multiset(Fresh(s, limit))[c] == if c.eligible && c.freshness <= limit then multiset(s)[c] else 0
  {
    if s != [] {
      FreshHas(s[1..], limit);
      assert s == [s[0]] + s[1..];
    }
  }

  /** The ranking is the fresh eligible candidates, each as often as it was given, in order. */
  lemma RankIsSortedSelection(s: seq<Candidate>, limit: real)
    requires Rank(s, limit).Some?
    ensures var r := Rank(s, limit).value;
            && Ascending(r, NotAfter)
            && (forall i, k | 0 <= i < k < |r| ::
                  || r[i].distance < r[k].distance
                  || (r[i].distance == r[k].distance
                      && (r[i].freshness < r[k].freshness
                          || (r[i].freshness == r[k].freshness && r[i].driver <= r[k].driver))))
            && forall c :: multiset(r)[c] == if c.eligible && c.freshness <= limit then multiset(s)[c] else 0
  {
    SortedKeeps(Fresh(s, limit), NotAfter);
    FreshHas(s, limit);
  }

  lemma SameHead(a: seq<Candidate>, b: seq<Candidate>)
    requires Ascending(a, NotAfter) && Ascending(b, NotAfter) && multiset(a) == multiset(b) && DistinctDrivers(a) && a != [] && b != []
    ensures a[0] == b[0]
  {
    assert a[0] in multiset(b) && b[0] in multiset(a);
    var i :| 0 <= i < |b| && b[i] == a[0];
    var k :| 0 <= k < |a| && a[k] == b[0];
    assert NotAfter(b[0], a[0]) && NotAfter(a[0], b[0]);
  }

  lemma Beheaded(s: seq<Candidate>)
    requires s != []
    ensures s == [s[0]] + s[1..] && multiset(s[1..]) == multiset(s) - multiset{s[0]}
  {
    assert s == [s[0]] + s[1..];
  }

  lemma {:induction false} AscendingUnique(a: seq<Candidate>, b: seq<Candidate>)
    requires Ascending(a, NotAfter) && Ascending(b, NotAfter) && multiset(a) == multiset(b) && DistinctDrivers(a)
    ensures a == b
  {
    if a == [] {
      assert |b| == |multiset(b)| == 0;
    } else {
      SameHead(a, b);
      Beheaded(a);
      Beheaded(b);
      AscendingUnique(a[1..], b[1..]);
    }
  }

  lemma {:induction false} FreshDistinct(s: seq<Candidate>, limit: real)
    requires DistinctDrivers(s)
    ensures DistinctDrivers(Fresh(s, limit)) && forall c | c in Fresh(s, limit) :: c in s
  {
    if s != [] {
      FreshDistinct(s[1..], limit);
      assert forall c | c in s[1..] :: c.driver != s[0].driver;
    }
  }

  lemma SortedDistinct(s: seq<Candidate>)
    requires DistinctDrivers(s)
    ensures DistinctDrivers(Sorted(s, NotAfter))
  {
    var r := Sorted(s, NotAfter);
    SortedKeeps(s, NotAfter);
    PermutationDistinct(s, r);
    forall i, k | 0 <= i < k < |r| ensures r[i].driver != r[k].driver {
      assert r[i] in multiset(s) && r[k] in multiset(s);
      var p :| 0 <= p < |s| && s[p] == r[i];
      var q :| 0 <= q < |s| && s[q] == r[k];
    }
  }

  lemma SameMembers(s: seq<Candidate>, t: seq<Candidate>)
    requires multiset(s) == multiset(t)
    ensures forall c :: c in s <==> c in t
  {
    forall c ensures c in s <==> c in t {
      assert c in s <==> c in multiset(s);
      assert c in t <==> c in multiset(t);
    }
  }

  lemma SameVerdict(s: seq<Candidate>, t: seq<Candidate>)
    requires forall c :: c in s <==> c in t
    ensures (exists i :: 0 <= i < |s| && !ValidCandidate(s[i])) <==> (exists i :: 0 <= i < |t| && !ValidCandidate(t[i]))
  {
    forall i | 0 <= i < |s| && !ValidCandidate(s[i]) ensures exists k :: 0 <= k < |t| && !ValidCandidate(t[k]) {
      assert s[i] in t;
    }
    forall i | 0 <= i < |t| && !ValidCandidate(t[i]) ensures exists k :: 0 <= k < |s| && !ValidCandidate(s[k]) {
      assert t[i] in s;
    }
  }

  /** With distinct Drivers the ranking does not depend on the order of the input. */
  lemma RankIgnoresOrder(s: seq<Candidate>, t: seq<Candidate>, limit: real)
    requires multiset(s) == multiset(t) && DistinctDrivers(s)
    ensures Rank(s, limit) == Rank(t, limit)
  {
    SameMembers(s, t);
    SameVerdict(s, t);
    if Rank(s, limit).Some? {
      RankIsSortedSelection(s, limit);
      RankIsSortedSelection(t, limit);
      FreshDistinct(s, limit);
      SortedDistinct(Fresh(s, limit));
      AscendingUnique(Sorted(Fresh(s, limit), NotAfter), Sorted(Fresh(t, limit), NotAfter));
    }
  }
}
