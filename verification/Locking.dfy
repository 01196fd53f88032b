/**
 * The transactions once more, as the rows they lock, one at a time and interleaved in any way.
 * FOR UPDATE and UPDATE wait for the holder of a row; SKIP LOCKED passes a held row by.
 */
module Locking {
  import opened Basics
  import opened Tables
  import opened Commitments
  import opened Steps
  import R = Ranking
  import opened Queries
  import opened Commands
  import opened Bookings
  import opened Runs

  /** The kinds of locks, in the order in which every transaction takes those it waits for. */
  datatype Kind =
    | AdvisoryLock | ReceiptLock | QuoteLock | TripLock | OfferLock | DeliveryLock
    | ReservationLock | AssignmentLock | AttemptLock | WorkLock

  function Rank(k: Kind): nat {
    match k
    case AdvisoryLock => 0
    case ReceiptLock => 1
    case QuoteLock => 2
    case TripLock => 3
    case OfferLock => 4
    case DeliveryLock => 5
    case ReservationLock => 6
    case AssignmentLock => 7
    case AttemptLock => 8
    case WorkLock => 9
  }

  datatype Lock = Lock(kind: Kind, id: Id)

  datatype Op = Await(lock: Lock) | Skip(lock: Lock)

  /** What a transaction is waiting for outranks everything it may hold by then. */
  ghost predicate Ascending(program: seq<Op>) {
    forall i, k | 0 <= i < k < |program| && program[k].Await? :: Rank(program[i].lock.kind) < Rank(program[k].lock.kind)
  }

  // ---- The system

  datatype Txn = Txn(program: seq<Op>, done: nat, held: set<Lock>)

  type System = map<Id, Txn>

  ghost predicate TxnOk(t: Txn) {
    && t.done <= |t.program| && Ascending(t.program)
    && forall l | l in t.held :: exists i :: 0 <= i < t.done && t.program[i].lock == l
  }

  ghost predicate Safe(s: System) {
    && (forall t | t in s :: TxnOk(s[t]))
    && (forall t, u, l | t in s && u in s && l in s[t].held && l in s[u].held :: t == u)
  }

  predicate HeldByOther(s: System, t: Id, l: Lock) {
    exists u | u in s :: u != t && l in s[u].held
  }

  predicate Unfinished(s: System, t: Id) {
    t in s && s[t].done < |s[t].program|
  }

  /** The transaction is at a lock that another one holds. */
  predicate Waiting(s: System, t: Id) {
    Unfinished(s, t) && s[t].program[s[t].done].Await? && HeldByOther(s, t, s[t].program[s[t].done].lock)
  }

  /** t waits for u. */
  predicate WaitsFor(s: System, t: Id, u: Id) {
    Unfinished(s, t) && s[t].program[s[t].done].Await? && u in s && u != t && s[t].program[s[t].done].lock in s[u].held
  }

  /** A transaction that is not waiting takes its next lock, or passes it by. */
  function Advanced(s: System, t: Id): System
    requires Unfinished(s, t)
  {
    var x := s[t];
    var l := x.program[x.done].lock;
    s[t := x.(done := x.done + 1, held := if HeldByOther(s, t, l) then x.held else x.held + {l})]
  }

  datatype Event = Begin(t: Id, program: seq<Op>) | Advance(t: Id) | End(t: Id)

  /** A transaction begins, goes on, or ends and releases its locks; it may end early. */
  ghost predicate Possible(s: System, e: Event) {
    match e
    case Begin(t, program) => t !in s && Ascending(program)
    case Advance(t) => Unfinished(s, t) && !Waiting(s, t)
    case End(t) => t in s
  }

  function Next(s: System, e: Event): System
    requires e.Advance? ==> Unfinished(s, e.t)
  {
    match e
    case Begin(t, program) => s[t := Txn(program, 0, {})]
    case Advance(t) => Advanced(s, t)
    case End(t) => s - {t}
  }

  lemma SafeNext(s: System, e: Event)
    requires Safe(s) && Possible(s, e)
    ensures Safe(Next(s, e))
  {
    var s' := Next(s, e);
    forall t | t in s' ensures TxnOk(s'[t]) {
      if t in s && s'[t] == s[t] {
        assert TxnOk(s[t]);
      } else if e.Advance? {
        assert TxnOk(s[t]);
        forall l | l in s'[t].held ensures exists i :: 0 <= i < s'[t].done && s'[t].program[i].lock == l {
          if l in s[t].held {
            var i :| 0 <= i < s[t].done && s[t].program[i].lock == l;
          } else {
            assert s[t].program[s[t].done].lock == l;
          }
        }
      }
    }
  }

  ghost predicate Run(s: System, events: seq<Event>, s': System)
    decreases |events|
  {
    if events == [] then s' == s
    else Possible(s, events[0]) && Run(Next(s, events[0]), events[1..], s')
  }

  /** Every state that any interleaving reaches is safe. */
  lemma {:induction false} RunIsSafe(s: System, events: seq<Event>, s': System)
    requires Safe(s) && Run(s, events, s')
    ensures Safe(s')
    decreases |events|
  {
    if events != [] {
      SafeNext(s, events[0]);
      RunIsSafe(Next(s, events[0]), events[1..], s');
    }
  }

  /** A transaction holds, to its end, every lock for which it was ready to wait and which it has passed. */
  ghost predicate HoldsPassed(t: Txn) {
    forall i | 0 <= i < t.done && i < |t.program| && t.program[i].Await? :: t.program[i].lock in t.held
  }

  lemma HoldsNext(s: System, e: Event)
    requires Safe(s) && Possible(s, e) && forall t | t in s :: HoldsPassed(s[t])
    ensures forall t | t in Next(s, e) :: HoldsPassed(Next(s, e)[t])
  {
    forall t | t in Next(s, e) ensures HoldsPassed(Next(s, e)[t]) {
      if t in s { assert TxnOk(s[t]) && HoldsPassed(s[t]); }
    }
  }

  /** No two transactions of an interleaving have both passed a wait for the same row. */
  lemma {:induction false} PassedByOne(s: System, events: seq<Event>, s': System, t: Id, i: nat, u: Id, k: nat)
    requires Safe(s) && (forall v | v in s :: HoldsPassed(s[v])) && Run(s, events, s')
    requires t in s' && i < s'[t].done && i < |s'[t].program| && s'[t].program[i].Await?
    requires u in s' && k < s'[u].done && k < |s'[u].program| && s'[u].program[k] == s'[t].program[i]
    ensures t == u
    decreases |events|
  {
    if events == [] {
      assert HoldsPassed(s[t]) && HoldsPassed(s[u]);
    } else {
      SafeNext(s, events[0]);
      HoldsNext(s, events[0]);
      PassedByOne(Next(s, events[0]), events[1..], s', t, i, u, k);
    }
  }

  // ---- No deadlock

  /** The lock at which a transaction is. */
  function Wanted(s: System, t: Id): nat
    requires Unfinished(s, t)
  {
    Rank(s[t].program[s[t].done].lock.kind)
  }

  /** Along the wait-for graph the awaited locks ascend. */
  lemma WaitsAscend(s: System, t: Id, u: Id)
    requires Safe(s) && WaitsFor(s, t, u) && Unfinished(s, u) && s[u].program[s[u].done].Await?
    ensures Wanted(s, t) < Wanted(s, u)
  {
    assert TxnOk(s[u]);
    var l := s[t].program[s[t].done].lock;
    var i :| 0 <= i < s[u].done && s[u].program[i].lock == l;
  }

  ghost predicate Path(s: System, path: seq<Id>) {
    |path| > 0 && forall i | 0 <= i < |path| - 1 :: WaitsFor(s, path[i], path[i + 1])
  }

  lemma {:induction false} PathAscends(s: System, path: seq<Id>)
    requires Safe(s) && Path(s, path) && |path| > 1 && Waiting(s, Last(path))
    ensures Unfinished(s, path[0]) && Wanted(s, path[0]) < Wanted(s, Last(path))
    decreases |path|
  {
    if |path| == 2 {
      assert path[0 + 1] == Last(path);
      WaitsAscend(s, path[0], path[1]);
    } else {
      assert WaitsFor(s, path[1], path[2]) && WaitsFor(s, path[0], path[1]);
      assert Path(s, path[1..]) by {
        forall i | 0 <= i < |path| - 2 ensures WaitsFor(s, path[1..][i], path[1..][i + 1]) {
          assert WaitsFor(s, path[i + 1], path[i + 2]);
        }
      }
      PathAscends(s, path[1..]);
      WaitsAscend(s, path[0], path[1]);
    }
  }

  /** The wait-for graph never has a cycle. */
  lemma NoCycle(s: System, path: seq<Id>)
    requires Safe(s) && Path(s, path) && |path| > 1
    ensures path[0] != Last(path)
  {
    if path[0] == Last(path) {
      assert WaitsFor(s, path[0], path[1]);
      PathAscends(s, path);
    }
  }

  /** The waiting transaction at the highest lock. */
  lemma {:induction false} Highest(s: System, among: set<Id>) returns (t: Id)
    requires among != {} && forall u | u in among :: Waiting(s, u)
    ensures t in among && Unfinished(s, t)
    ensures forall u | u in among :: Unfinished(s, u) && Wanted(s, u) <= Wanted(s, t)
    decreases |among|
  {
    t :| t in among;
    if among != {t} {
      var other := Highest(s, among - {t});
      if Wanted(s, t) < Wanted(s, other) { t := other; }
    }
  }

  /** As long as any transaction is open, one of them can go on or has reached its end. */
  lemma SomeoneCanGoOn(s: System) returns (t: Id)
    requires Safe(s) && s != map[]
    ensures t in s && !Waiting(s, t)
  {
    var waiting := set u | u in s && Waiting(s, u);
    if waiting == {} {
      t :| t in s;
      assert t !in waiting;
    } else {
      var top := Highest(s, waiting);
      var l := s[top].program[s[top].done].lock;
      t :| t in s && t != top && l in s[t].held;
      if Waiting(s, t) {
        assert t in waiting && WaitsFor(s, top, t);
        WaitsAscend(s, top, t);
      }
    }
  }

  // ---- Every transaction can run to its end

  lemma Lower(s: set<Id>, x: Id, m: Id)
    requires x in s && m in s && forall n | n in s - {x} :: m <= n
    ensures exists least :: least in s && forall n | n in s :: least <= n
  {
    var least := if m < x then m else x;
    forall n | n in s ensures least <= n { if n != x { assert n in s - {x}; } }
    assert least in s;
  }

  function Least(s: set<Id>): (m: Id)
    requires s != {}
    ensures m in s && forall n | n in s :: m <= n
  {
    HasLeast(s);
    var m :| m in s && forall n | n in s :: m <= n; m
  }

  lemma {:induction false} HasLeast(s: set<Id>)
    requires s != {}
    ensures exists m :: m in s && forall n | n in s :: m <= n
    decreases s
  {
    var x :| x in s;
    if s != {x} {
      HasLeast(s - {x});
      var m :| m in s - {x} && forall n | n in s - {x} :: m <= n;
      Lower(s, x, m);
    }
  }

  function Sum(f: map<Id, nat>): nat
    decreases |f|
  {
    if f == map[] then 0 else
    var t := Least(f.Keys);
    assert |f - {t}| < |f| by { Smaller(f, t); }
    f[t] + Sum(f - {t})
  }

  lemma Smaller(f: map<Id, nat>, t: Id)
    requires t in f
    ensures |f - {t}| == |f| - 1
  {
    assert (f - {t}).Keys == f.Keys - {t};
  }

  lemma {:induction false} SumAny(f: map<Id, nat>, t: Id)
    requires t in f
    ensures Sum(f) == f[t] + Sum(f - {t})
    decreases |f|
  {
    var m := Least(f.Keys);
    if m != t {
      Smaller(f, m);
      SumAny(f - {m}, t);
      var g := f - {t};
      assert m in g && Least(g.Keys) == m;
      assert f - {m} - {t} == g - {m};
    }
  }

  /** Steps still to be taken, ends included. */
  function StepsLeft(s: System): map<Id, nat>
    requires forall t | t in s :: s[t].done <= |s[t].program|
  {
    map t | t in s :: |s[t].program| - s[t].done + 1
  }

  /** Only steps forward, and ends of transactions that are done. */
  ghost predicate Orderly(s: System, events: seq<Event>, s': System)
    decreases |events|
  {
    if events == [] then s' == s
    else
      && (events[0].Advance? || (events[0].End? && !Unfinished(s, events[0].t)))
      && Possible(s, events[0]) && Orderly(Next(s, events[0]), events[1..], s')
  }

  lemma StepShrinks(s: System, e: Event)
    requires Safe(s) && Possible(s, e) && (e.Advance? || e.End?)
    ensures Safe(Next(s, e)) && Sum(StepsLeft(Next(s, e))) < Sum(StepsLeft(s))
  {
    hide Ascending, Waiting, HeldByOther, Sum;
    SafeNext(s, e);
    if e.Advance? { AdvanceShrinks(s, e.t); } else { EndShrinks(s, e.t); }
  }

  lemma AdvanceShrinks(s: System, t: Id)
    requires Unfinished(s, t) && forall u | u in s :: s[u].done <= |s[u].program|
    ensures Sum(StepsLeft(Advanced(s, t))) < Sum(StepsLeft(s))
  {
    hide HeldByOther, Sum;
    var left, left' := StepsLeft(s), StepsLeft(Advanced(s, t));
    SumAny(left, t);
    SumAny(left', t);
    assert left' - {t} == left - {t};
  }

  lemma EndShrinks(s: System, t: Id)
    requires t in s && forall u | u in s :: s[u].done <= |s[u].program|
    ensures Sum(StepsLeft(s - {t})) < Sum(StepsLeft(s))
  {
    hide Sum;
    SumAny(StepsLeft(s), t);
    assert StepsLeft(s - {t}) == StepsLeft(s) - {t};
  }

  /** From any reachable state all open transactions can be brought to their ends, none aborted. */
  lemma {:induction false} AllCanFinish(s: System) returns (events: seq<Event>)
    requires Safe(s)
    ensures Orderly(s, events, map[])
    decreases Sum(StepsLeft(s))
  {
    if s == map[] {
      events := [];
    } else {
      var t := SomeoneCanGoOn(s);
      var e := if Unfinished(s, t) then Advance(t) else End(t);
      StepShrinks(s, e);
      var rest := AllCanFinish(Next(s, e));
      events := [e] + rest;
      assert events[1..] == rest;
    }
  }

  // ---- The repositories' transactions

  /** The rows that a transaction comes upon; offers[i] holds reservations[i] and drivers[i]. */
  datatype Rows = Rows(
    advisory: Id, receipt: Id, activeTrip: Option<Id>, job: Id, offers: seq<Id>, reservations: seq<Id>,
    drivers: seq<Id>, assignment: Id, candidates: seq<Id>, attempt: Option<Id>)

  function AwaitAll(kind: Kind, ids: seq<Id>): seq<Op> {
    if ids == [] then [] else [Await(Lock(kind, ids[0]))] + AwaitAll(kind, ids[1..])
  }

  function SkipAll(ids: seq<Id>): seq<Op> {
    if ids == [] then [] else [Skip(Lock(WorkLock, ids[0]))] + SkipAll(ids[1..])
  }

  /** The loop of a cancellation: each offer's reservation and then its Driver's work state. */
  function RevokeLocks(reservations: seq<Id>, drivers: seq<Id>): seq<Op> {
    if reservations == [] || drivers == [] then []
    else [Await(Lock(ReservationLock, reservations[0])), Await(Lock(WorkLock, drivers[0]))]
         + RevokeLocks(reservations[1..], drivers[1..])
  }

  function Receipts(r: Rows): seq<Op> {
    [Await(Lock(AdvisoryLock, r.advisory)), Await(Lock(ReceiptLock, r.receipt))]
  }

  /** The one offer an accept, reject or sweep concerns. */
  predicate OneOffer(r: Rows) {
    |r.offers| == 1 && |r.reservations| == 1 && |r.drivers| == 1
  }

  /** The locks of a command in the order of its statements; a transaction may end before the last. */
  function Locks(cmd: Command, r: Rows): seq<Op>
    requires cmd.AcceptTrip? || cmd.RejectTrip? || cmd.SweepTrip? || cmd.AcceptDelivery? || cmd.SweepDelivery? ==> OneOffer(r)
  {
    match cmd
    case SetWork(d, _, _) => [Await(Lock(WorkLock, d))]
    case IssueQuote(_, _, _, _) => []
    case CreateTrip(_, quote, _, _, _) =>
      Receipts(r) + [Await(Lock(QuoteLock, quote))]
      + (if r.activeTrip.Some? then [Await(Lock(TripLock, r.activeTrip.value))] else [])
    case StartTrip(_, id, _, _, _, _) =>
      Receipts(r) + [Await(Lock(TripLock, id))]
      + AwaitAll(OfferLock, if r.offers == [] then [] else r.offers[..1]) + SkipAll(r.candidates)
    case AcceptTrip(_, _, _, _, _) => Receipts(r) + [Await(Lock(TripLock, r.job))] + OfferLocks(r)
    case RejectTrip(_, _, _, _, _, _) =>
      Receipts(r) + [Await(Lock(TripLock, r.job))] + OfferLocks(r) + SkipAll(r.candidates)
    case SweepTrip(_, _, _, _) =>
      [Skip(Lock(TripLock, r.job)), Skip(Lock(OfferLock, r.offers[0])), Skip(Lock(ReservationLock, r.reservations[0])),
       Skip(Lock(WorkLock, r.drivers[0]))] + SkipAll(r.candidates)
    case DriveTrip(d, id, _, _, _, _, _) =>
      Receipts(r) + [Await(Lock(TripLock, id)), Await(Lock(AssignmentLock, r.assignment)), Await(Lock(WorkLock, d))]
    case CancelTrip(_, id, _, _) =>
      Receipts(r) + [Await(Lock(TripLock, id))]
      + if r.offers != [] then AwaitAll(OfferLock, r.offers) + RevokeLocks(r.reservations, r.drivers)
        else if r.drivers != [] then [Await(Lock(AssignmentLock, r.assignment)), Await(Lock(WorkLock, r.drivers[0]))]
        else []
    case CreateDelivery(_, _, _) => Receipts(r)
    case StartDelivery(_, id, _, _, _, _) => Receipts(r) + [Await(Lock(DeliveryLock, id))] + SkipAll(r.candidates)
    case AcceptDelivery(d, o, _, _) =>
      [Await(Lock(OfferLock, o)), Await(Lock(DeliveryLock, r.job)), Await(Lock(ReservationLock, r.reservations[0])),
       Await(Lock(WorkLock, d))]
    case DriveDelivery(d, id, _, _, _, _) =>
      Receipts(r) + [Await(Lock(DeliveryLock, id)), Await(Lock(AssignmentLock, r.assignment)), Await(Lock(WorkLock, d))]
    case SweepDelivery(o, _, _) =>
      [Skip(Lock(OfferLock, o)), Skip(Lock(DeliveryLock, r.job)), Await(Lock(ReservationLock, r.reservations[0])),
       Await(Lock(WorkLock, r.drivers[0]))]
    case Capture(_, id, _, _, _) =>
      Receipts(r) + [Await(Lock(TripLock, id))]
      + (if r.attempt.Some? then [Await(Lock(AttemptLock, r.attempt.value))] else [])
  }

  function OfferLocks(r: Rows): seq<Op>
    requires OneOffer(r)
  {
    [Await(Lock(OfferLock, r.offers[0])), Await(Lock(ReservationLock, r.reservations[0])), Await(Lock(WorkLock, r.drivers[0]))]
  }

  lemma {:induction false} SkipsNeverWait(program: seq<Op>, ids: seq<Id>)
    requires Ascending(program)
    ensures Ascending(program + SkipAll(ids))
    decreases |ids|
  {
    if ids == [] {
      assert program + SkipAll(ids) == program;
    } else {
      var longer := program + [Skip(Lock(WorkLock, ids[0]))];
      SkipsNeverWait(longer, ids[1..]);
      assert longer + SkipAll(ids[1..]) == program + SkipAll(ids);
    }
  }

  lemma AtMostOne(kind: Kind, ids: seq<Id>)
    requires |ids| <= 1
    ensures AwaitAll(kind, ids) == if ids == [] then [] else [Await(Lock(kind, ids[0]))]
  {
    if ids != [] { assert ids[1..] == []; }
  }

  lemma CancelAscends(cmd: Command, r: Rows)
    requires cmd.CancelTrip? && |r.offers| <= 1 && |r.reservations| == |r.offers|
    ensures Ascending(Locks(cmd, r))
  {
    if r.offers != [] {
      AtMostOne(OfferLock, r.offers);
      assert r.reservations[1..] == [];
      if r.drivers != [] { assert RevokeLocks(r.reservations[1..], r.drivers[1..]) == []; }
    }
  }

  lemma SearchAscends(cmd: Command, r: Rows)
    requires cmd.StartTrip? || cmd.RejectTrip? || cmd.SweepTrip? || cmd.StartDelivery?
    requires cmd.RejectTrip? || cmd.SweepTrip? ==> OneOffer(r)
    ensures Ascending(Locks(cmd, r))
  {
    match cmd
    case StartTrip(_, id, _, _, _, _) =>
      var offers := if r.offers == [] then [] else r.offers[..1];
      AtMostOne(OfferLock, offers);
      SkipsNeverWait(Receipts(r) + [Await(Lock(TripLock, id))] + AwaitAll(OfferLock, offers), r.candidates);
    case RejectTrip(_, _, _, _, _, _) =>
      SkipsNeverWait(Receipts(r) + [Await(Lock(TripLock, r.job))] + OfferLocks(r), r.candidates);
    case SweepTrip(_, _, _, _) =>
      SkipsNeverWait([Skip(Lock(TripLock, r.job)), Skip(Lock(OfferLock, r.offers[0])),
                      Skip(Lock(ReservationLock, r.reservations[0])), Skip(Lock(WorkLock, r.drivers[0]))], r.candidates);
    case StartDelivery(_, id, _, _, _, _) =>
      SkipsNeverWait(Receipts(r) + [Await(Lock(DeliveryLock, id))], r.candidates);
  }

  /** Every transaction ascends, a cancellation provided that the Trip has no more than one pending offer. */
  lemma LocksAscend(cmd: Command, r: Rows)
    requires cmd.AcceptTrip? || cmd.RejectTrip? || cmd.SweepTrip? || cmd.AcceptDelivery? || cmd.SweepDelivery? ==> OneOffer(r)
    requires cmd.CancelTrip? ==> |r.offers| <= 1 && |r.reservations| == |r.offers|
    ensures Ascending(Locks(cmd, r))
  {
    if cmd.CancelTrip? {
      CancelAscends(cmd, r);
    } else if cmd.StartTrip? || cmd.RejectTrip? || cmd.SweepTrip? || cmd.StartDelivery? {
      SearchAscends(cmd, r);
    }
  }

  lemma {:induction false} AwaitsEach(kind: Kind, ids: seq<Id>)
    ensures |AwaitAll(kind, ids)| == |ids|
  {
    if ids != [] { AwaitsEach(kind, ids[1..]); }
  }

  /** A cancellation ascends exactly when it meets at most one pending offer. */
  lemma CancellationAscendsIff(cmd: Command, r: Rows)
    requires cmd.CancelTrip? && |r.reservations| == |r.offers| && (r.offers != [] ==> |r.drivers| == |r.offers|)
    ensures Ascending(Locks(cmd, r)) <==> |r.offers| <= 1
  {
    if |r.offers| <= 1 {
      CancelAscends(cmd, r);
    } else {
      var p, n := Locks(cmd, r), |r.offers|;
      AwaitsEach(OfferLock, r.offers);
      assert p[3 + n..] == RevokeLocks(r.reservations, r.drivers);
      RevokesInTurn(r.reservations, r.drivers);
      assert p[3 + n + 1] == Await(Lock(WorkLock, r.drivers[0]));
      assert p[3 + n + 2] == Await(Lock(ReservationLock, r.reservations[1]));
    }
  }

  lemma RevokesInTurn(reservations: seq<Id>, drivers: seq<Id>)
    requires |reservations| == |drivers| >= 2
    ensures var p := RevokeLocks(reservations, drivers);
            |p| >= 3 && p[1] == Await(Lock(WorkLock, drivers[0])) && p[2] == Await(Lock(ReservationLock, reservations[1]))
  {
    var rest := RevokeLocks(reservations[1..], drivers[1..]);
    assert rest[0] == Await(Lock(ReservationLock, reservations[1]));
  }

  // ---- All of it together

  /** The rows that a command comes upon in a database; a cancellation comes upon the Trip's pending offers. */
  ghost predicate Meets(db: Db, cmd: Command, r: Rows) {
    && (cmd.AcceptTrip? || cmd.RejectTrip? || cmd.SweepTrip? || cmd.AcceptDelivery? || cmd.SweepDelivery? ==> OneOffer(r))
    && (cmd.CancelTrip? ==>
          && |r.reservations| == |r.offers|
          && multiset(r.offers) == multiset(PendingOffers(db.core, Trip(cmd.id))))
  }

  /** What a command locks in a database that a run of commands reaches. */
  ghost predicate IsTransaction(program: seq<Op>) {
    exists db, cmd, r :: Reachable(db) && Meets(db, cmd, r) && program == Locks(cmd, r)
  }

  lemma TransactionAscends(program: seq<Op>)
    requires IsTransaction(program)
    ensures Ascending(program)
  {
    hide Inv, Reachable, Locks, Ascending;
    var db, cmd, r :| Reachable(db) && Meets(db, cmd, r) && program == Locks(cmd, r);
    ReachableInv(db);
    if cmd.CancelTrip? {
      MeetsAtMostOne(db, cmd, r);
    }
    LocksAscend(cmd, r);
  }

  lemma MeetsAtMostOne(db: Db, cmd: Command, r: Rows)
    requires Inv(db) && cmd.CancelTrip? && Meets(db, cmd, r)
    ensures |r.offers| <= 1
  {
    hide Inv, Holds, Sound;
    var ix := Witness(db);
    if Trip(cmd.id) in db.core.jobs {
      PendingCases(db, ix, Trip(cmd.id));
    } else {
      assert PendingOffers(db.core, Trip(cmd.id)) == {};
    }
    assert |r.offers| == |multiset(r.offers)| == |PendingOffers(db.core, Trip(cmd.id))| <= 1;
  }

  /** An interleaving of commands: begun at any time, gone on with, and ended. */
  ghost predicate CommandRun(s: System, events: seq<Event>, s': System)
    decreases |events|
  {
    if events == [] then s' == s
    else
      var e := events[0];
      && (match e
          case Begin(t, program) => t !in s && IsTransaction(program)
          case Advance(t) => Unfinished(s, t) && !Waiting(s, t)
          case End(t) => t in s)
      && CommandRun(Next(s, e), events[1..], s')
  }

  lemma {:induction false} CommandRunIsRun(s: System, events: seq<Event>, s': System)
    requires CommandRun(s, events, s')
    ensures Run(s, events, s')
    decreases |events|
  {
    hide Ascending, IsTransaction, Waiting, Unfinished;
    if events != [] {
      if events[0].Begin? { TransactionAscends(events[0].program); }
      CommandRunIsRun(Next(s, events[0]), events[1..], s');
    }
  }

  /**
   * However any number of commands interleave, no transactions ever wait for each other in a circle, and
   * while one is open one can go on.
   */
  lemma CommandsNeverDeadlock(events: seq<Event>, s: System, path: seq<Id>)
    requires CommandRun(map[], events, s)
    ensures Path(s, path) && |path| > 1 ==> path[0] != Last(path)
    ensures s != map[] ==> exists t :: t in s && !Waiting(s, t)
  {
    hide CommandRun, Run, Waiting, Path;
    CommandRunIsRun(map[], events, s);
    assert Safe(map[]);
    RunIsSafe(map[], events, s);
    hide Safe;
    if Path(s, path) && |path| > 1 { NoCycle(s, path); }
    if s != map[] { var t := SomeoneCanGoOn(s); }
  }

  /** However commands interleave, two open transactions have never both passed a wait for the same row. */
  lemma CommandsExclude(events: seq<Event>, s: System, t: Id, i: nat, u: Id, k: nat)
    requires CommandRun(map[], events, s)
    requires t in s && i < s[t].done && i < |s[t].program| && s[t].program[i].Await?
    requires u in s && k < s[u].done && k < |s[u].program| && s[u].program[k] == s[t].program[i]
    ensures t == u
  {
    hide CommandRun, Run;
    CommandRunIsRun(map[], events, s);
    PassedByOne(map[], events, s, t, i, u, k);
  }

  /** Of the open transactions with the same key's advisory lock one at most has got past its first statement. */
  lemma OnePerKey(events: seq<Event>, s: System, t: Id, cmd: Command, r: Rows, u: Id, cmd': Command, r': Rows, db: Db)
    requires CommandRun(map[], events, s) && Meets(db, cmd, r) && Meets(db, cmd', r')
    requires t in s && s[t].program == Locks(cmd, r) && KeyOf(cmd).Some? && s[t].done > 0
    requires u in s && s[u].program == Locks(cmd', r') && KeyOf(cmd').Some? && s[u].done > 0
    requires r.advisory == r'.advisory
    ensures t == u
  {
    hide CommandRun, Run;
    assert s[t].program[0] == Await(Lock(AdvisoryLock, r.advisory)) == s[u].program[0];
    CommandsExclude(events, s, t, 0, u, 0);
  }
}
