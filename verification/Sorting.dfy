/** A stable sort by a comparator, as Array.prototype.sort and toSorted do it. */
module Sorting {

  function Insert<T>(x: T, s: seq<T>, notAfter: (T, T) -> bool): seq<T> {
    if s == [] || notAfter(x, s[0]) then [x] + s else [s[0]] + Insert(x, s[1..], notAfter)
  }

  function Sorted<T>(s: seq<T>, notAfter: (T, T) -> bool): seq<T> {
    if s == [] then [] else Insert(s[0], Sorted(s[1..], notAfter), notAfter)
  }

  /** compare(x, y) <= 0 for a consistent comparator. */
  ghost predicate TotalPreorder<T(!new)>(notAfter: (T, T) -> bool) {
    && (forall x, y :: notAfter(x, y) || notAfter(y, x))
    && (forall x, y, z :: notAfter(x, y) && notAfter(y, z) ==> notAfter(x, z))
  }

  ghost predicate Ascending<T>(s: seq<T>, notAfter: (T, T) -> bool) {
    forall i, k | 0 <= i < k < |s| :: notAfter(s[i], s[k])
  }

  lemma {:induction false} InsertKeeps<T(!new)>(x: T, s: seq<T>, notAfter: (T, T) -> bool)
    requires TotalPreorder(notAfter) && Ascending(s, notAfter)
    ensures Ascending(Insert(x, s, notAfter), notAfter)
    ensures multiset(Insert(x, s, notAfter)) == multiset(s) + multiset{x}
  {
    if s == [] {
    } else if notAfter(x, s[0]) {
      var r := [x] + s;
      forall i, k | 0 <= i < k < |r| ensures notAfter(r[i], r[k]) {
        if i == 0 && k > 1 { assert notAfter(s[0], s[k - 1]); }
      }
    } else {
      InsertKeeps(x, s[1..], notAfter);
      var rest := Insert(x, s[1..], notAfter);
      forall k | 0 <= k < |rest| ensures notAfter(s[0], rest[k]) {
        assert rest[k] in multiset(rest);
      }
      assert s == [s[0]] + s[1..];
    }
  }

  /** The result is in order and holds what was given. */
  lemma {:induction false} SortedKeeps<T(!new)>(s: seq<T>, notAfter: (T, T) -> bool)
    requires TotalPreorder(notAfter)
    ensures Ascending(Sorted(s, notAfter), notAfter) && multiset(Sorted(s, notAfter)) == multiset(s)
  {
    if s != [] {
      SortedKeeps(s[1..], notAfter);
      InsertKeeps(s[0], Sorted(s[1..], notAfter), notAfter);
      assert s == [s[0]] + s[1..];
    }
  }

  ghost predicate Distinct<T>(s: seq<T>) {
    forall i, k | 0 <= i < k < |s| :: s[i] != s[k]
  }

  lemma TwiceCounts<T>(s: seq<T>, i: nat, k: nat)
    requires i < k < |s| && s[i] == s[k]
    ensures multiset(s)[s[i]] >= 2
  {
    assert s == s[..k] + [s[k]] + s[k + 1..];
    assert s[i] in s[..k];
  }

  lemma OnceCounts<T>(s: seq<T>, p: nat)
    requires p < |s| && Distinct(s)
    ensures multiset(s)[s[p]] == 1
  {
    assert s == s[..p] + [s[p]] + s[p + 1..];
    assert s[p] !in s[..p] && s[p] !in s[p + 1..];
    assert s[p] !in multiset(s[..p]) && s[p] !in multiset(s[p + 1..]);
  }

  /** A permutation of distinct elements is distinct. */
  lemma PermutationDistinct<T>(s: seq<T>, t: seq<T>)
    requires Distinct(s) && multiset(s) == multiset(t)
    ensures Distinct(t)
  {
    forall i, k | 0 <= i < k < |t| ensures t[i] != t[k] {
      assert t[i] in multiset(s);
      var p :| 0 <= p < |s| && s[p] == t[i];
      OnceCounts(s, p);
      if t[i] == t[k] { TwiceCounts(t, i, k); }
    }
  }
}
