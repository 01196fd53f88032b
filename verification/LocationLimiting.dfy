/** Admission of Driver locations (apps/api/src/location/driver-location-rate-limiter.ts), with and without pruning. */
module LocationLimiting {
  import opened Basics
  import opened Tables

  const ACCEPTED_WINDOW := 3_000
  const PRUNE_SIZE := 1_000

  predicate Blocks(acceptedAt: map<Id, Time>, driver: Id, now: Time) {
    driver in acceptedAt && now - acceptedAt[driver] < ACCEPTED_WINDOW
  }

  function Pruned(acceptedAt: map<Id, Time>, now: Time): map<Id, Time> {
    map d | d in acceptedAt && now - acceptedAt[d] < ACCEPTED_WINDOW :: acceptedAt[d]
  }

  /** The map after a call. */
  function Admitted(acceptedAt: map<Id, Time>, driver: Id, now: Time): map<Id, Time> {
    if Blocks(acceptedAt, driver, now) then acceptedAt
    else
      var m := acceptedAt[driver := now];
      if |m| < PRUNE_SIZE then m else Pruned(m, now)
  }

  class DriverLocationRateLimiter {
    var acceptedAtByDriver: map<Id, Time>

    constructor ()
      ensures acceptedAtByDriver == map[]
    {
      acceptedAtByDriver := map[];
    }

    /** tryAccept */
    method TryAccept(driver: Id, now: Time) returns (ok: bool)
      modifies this
      ensures ok == !Blocks(old(acceptedAtByDriver), driver, now)
      ensures acceptedAtByDriver == Admitted(old(acceptedAtByDriver), driver, now)
    {
      if driver in acceptedAtByDriver && now - acceptedAtByDriver[driver] < ACCEPTED_WINDOW { return false; }
      acceptedAtByDriver := acceptedAtByDriver[driver := now];
      PruneExpired(now);
      return true;
    }

    /** pruneExpired, which deletes while it iterates. */
    method PruneExpired(now: Time)
      modifies this
      ensures var before := old(acceptedAtByDriver);
              acceptedAtByDriver == if |before| < 1_000 then before else Pruned(before, now)
    {
      if |acceptedAtByDriver| < PRUNE_SIZE { return; }
      ghost var before := acceptedAtByDriver;
      var left := acceptedAtByDriver.Keys;
      while left != {}
        invariant left <= acceptedAtByDriver.Keys <= before.Keys
        invariant forall d | d in acceptedAtByDriver :: acceptedAtByDriver[d] == before[d]
        invariant forall d | d in before && d !in left ::
                    d in acceptedAtByDriver <==> now - before[d] < ACCEPTED_WINDOW
        decreases left
      {
        var d :| d in left;
        left := left - {d};
        if now - acceptedAtByDriver[d] >= ACCEPTED_WINDOW {
          acceptedAtByDriver := acceptedAtByDriver - {d};
        }
      }
    }
  }

  // ---- Whole runs

  datatype Call = Call(driver: Id, now: Time)

  function Answers(acceptedAt: map<Id, Time>, calls: seq<Call>): (answers: seq<bool>)
    ensures |answers| == |calls|
    decreases |calls|
  {
    if calls == [] then [] else
    [!Blocks(acceptedAt, calls[0].driver, calls[0].now)]
    + Answers(Admitted(acceptedAt, calls[0].driver, calls[0].now), calls[1..])
  }

  /** The same without ever pruning. */
  function Unpruned(acceptedAt: map<Id, Time>, calls: seq<Call>): (answers: seq<bool>)
    ensures |answers| == |calls|
    decreases |calls|
  {
    if calls == [] then [] else
    var ok := !Blocks(acceptedAt, calls[0].driver, calls[0].now);
    [ok] + Unpruned(if ok then acceptedAt[calls[0].driver := calls[0].now] else acceptedAt, calls[1..])
  }

  ghost predicate Clocked(start: Time, calls: seq<Call>) {
    (forall i | 0 <= i < |calls| :: start <= calls[i].now) && forall i, k | 0 <= i < k < |calls| :: calls[i].now <= calls[k].now
  }

  /** From `now` on the two maps block the same Drivers. */
  ghost predicate BlockAlike(m: map<Id, Time>, n: map<Id, Time>, now: Time) {
    forall d, t {:trigger Blocks(m, d, t)} {:trigger Blocks(n, d, t)} | t >= now :: Blocks(m, d, t) <==> Blocks(n, d, t)
  }

  lemma AdmittedAlike(m: map<Id, Time>, n: map<Id, Time>, driver: Id, now: Time)
    requires BlockAlike(m, n, now)
    ensures BlockAlike(Admitted(m, driver, now), if Blocks(n, driver, now) then n else n[driver := now], now)
  {
    var m', n' := Admitted(m, driver, now), if Blocks(n, driver, now) then n else n[driver := now];
    forall d, t | t >= now ensures Blocks(m', d, t) <==> Blocks(n', d, t) {
      assert Blocks(m, d, t) <==> Blocks(n, d, t);
    }
  }

  /** For every run with a clock that does not go back, pruning changes no answer. */
  lemma {:induction false} PruningIsInvisible(m: map<Id, Time>, n: map<Id, Time>, calls: seq<Call>, now: Time)
    requires BlockAlike(m, n, now) && Clocked(now, calls)
    ensures Answers(m, calls) == Unpruned(n, calls)
    decreases |calls|
  {
    if calls != [] {
      var c := calls[0];
      assert Blocks(m, c.driver, c.now) <==> Blocks(n, c.driver, c.now);
      assert BlockAlike(m, n, c.now);
      AdmittedAlike(m, n, c.driver, c.now);
      PruningIsInvisible(Admitted(m, c.driver, c.now), if Blocks(n, c.driver, c.now) then n else n[c.driver := c.now],
                         calls[1..], c.now);
    }
  }

  /** Until the window is over an acceptance keeps blocking its Driver. */
  lemma {:induction false} BlocksUntil(n: map<Id, Time>, calls: seq<Call>, driver: Id, at: Time, k: nat)
    requires driver in n && n[driver] == at && k < |calls| && Clocked(at, calls) && calls[k].driver == driver
    requires Unpruned(n, calls)[k]
    ensures calls[k].now - at >= ACCEPTED_WINDOW
    decreases |calls|
  {
    var c := calls[0];
    var ok := !Blocks(n, c.driver, c.now);
    var n' := if ok then n[c.driver := c.now] else n;
    assert Unpruned(n, calls)[1..] == Unpruned(n', calls[1..]);
    if k > 0 {
      if ok && c.driver == driver {
        assert calls[k].now >= c.now;
      } else {
        BlocksUntil(n', calls[1..], driver, at, k - 1);
      }
    }
  }

  lemma {:induction false} UnprunedApart(n: map<Id, Time>, calls: seq<Call>, i: nat, k: nat, now: Time)
    requires Clocked(now, calls) && i < k < |calls| && calls[i].driver == calls[k].driver
    requires Unpruned(n, calls)[i] && Unpruned(n, calls)[k]
    ensures calls[k].now - calls[i].now >= ACCEPTED_WINDOW
    decreases i
  {
    var c := calls[0];
    var ok := !Blocks(n, c.driver, c.now);
    var n' := if ok then n[c.driver := c.now] else n;
    assert Unpruned(n, calls)[1..] == Unpruned(n', calls[1..]);
    if i == 0 {
      BlocksUntil(n', calls[1..], c.driver, c.now, k - 1);
    } else {
      UnprunedApart(n', calls[1..], i - 1, k - 1, now);
    }
  }

  /** The accepted calls of the same Driver before call `k` are three seconds older. */
  ghost predicate Apart(answers: seq<bool>, calls: seq<Call>, k: nat)
    requires |answers| == |calls| && k < |calls|
  {
    forall i | 0 <= i < k && calls[i].driver == calls[k].driver && answers[i] :: calls[k].now - calls[i].now >= 3_000
  }

  lemma ApartStep(answers: seq<bool>, calls: seq<Call>, k: nat)
    requires |answers| == |calls| && 0 < k < |calls|
    ensures Apart(answers, calls, k) <==>
              && (calls[0].driver == calls[k].driver && answers[0] ==> calls[k].now - calls[0].now >= 3_000)
              && Apart(answers[1..], calls[1..], k - 1)
  {
    forall i | 0 < i < k ensures answers[i] == answers[1..][i - 1] && calls[i] == calls[1..][i - 1] {}
    assert calls[k] == calls[1..][k - 1];
  }

  lemma {:induction false} UnprunedIff(n: map<Id, Time>, calls: seq<Call>, k: nat, now: Time)
    requires Clocked(now, calls) && k < |calls| && (calls[k].driver in n ==> n[calls[k].driver] <= now)
    ensures Unpruned(n, calls)[k] <==>
              && (calls[k].driver in n ==> calls[k].now - n[calls[k].driver] >= 3_000)
              && Apart(Unpruned(n, calls), calls, k)
    decreases k
  {
    if k > 0 {
      hide Apart;
      var c, rest := calls[0], calls[1..];
      var n' := if Blocks(n, c.driver, c.now) then n else n[c.driver := c.now];
      assert Unpruned(n, calls)[1..] == Unpruned(n', rest);
      UnprunedIff(n', rest, k - 1, c.now);
      ApartStep(Unpruned(n, calls), calls, k);
    }
  }

  /** A location is accepted exactly when no accepted one of its Driver is less than three seconds older. */
  lemma AcceptedIff(calls: seq<Call>, k: nat, now: Time)
    requires Clocked(now, calls) && k < |calls|
    ensures Answers(map[], calls)[k] <==>
              forall i | 0 <= i < k && calls[i].driver == calls[k].driver && Answers(map[], calls)[i] ::
                calls[k].now - calls[i].now >= 3_000
  {
    PruningIsInvisible(map[], map[], calls, now);
    UnprunedIff(map[], calls, k, now);
  }

  /** Two locations of one Driver that the limiter accepts lie a window apart, whatever it has pruned. */
  lemma AcceptancesApart(acceptedAt: map<Id, Time>, calls: seq<Call>, i: nat, k: nat, now: Time)
    requires Clocked(now, calls) && i < k < |calls| && calls[i].driver == calls[k].driver
    requires Answers(acceptedAt, calls)[i] && Answers(acceptedAt, calls)[k]
    ensures calls[k].now - calls[i].now >= 3_000
  {
    PruningIsInvisible(acceptedAt, acceptedAt, calls, now);
    UnprunedApart(acceptedAt, calls, i, k, now);
  }
}
