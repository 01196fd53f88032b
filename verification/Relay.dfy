/**
 * The relay of outbox rows to subscribers (apps/api/src/realtime/realtime.gateway.ts): the order in
 * which a batch is sent, who receives what, and when subscriptions are revoked.
 */
module Relay {
  import opened Basics
  import opened Sorting
  import opened Tables
  import opened Commitments
  import opened Journals
  import opened Settlement
  import opened Steps
  import opened Runs

  /** A row of a batch; `at` is its place in the aggregate's outbox, which the gateway does not see. */
  datatype Row = Row(job: Job, event: Event, time: int, id: Id, at: nat)

  // ---- orderAggregateEvents

  /** Where the aggregate first occurs in the batch. */
  function FirstIndex(batch: seq<Row>, j: Job): (i: nat)
    ensures i <= |batch|
    ensures i < |batch| ==> batch[i].job == j
    ensures forall k | 0 <= k < i :: batch[k].job != j
  {
    if batch == [] || batch[0].job == j then 0 else 1 + FirstIndex(batch[1..], j)
  }

  predicate NotAfter(batch: seq<Row>, x: Row, y: Row) {
    var i, k := FirstIndex(batch, x.job), FirstIndex(batch, y.job);
    if i != k then i < k
    else if x.event.version != y.event.version then x.event.version < y.event.version
    else if x.time != y.time then x.time < y.time
    else x.id <= y.id
  }

  function Ordered(batch: seq<Row>): seq<Row> {
    Sorted(batch, (x, y) => NotAfter(batch, x, y))
  }

  /** A permutation; aggregates in order of first occurrence, each in one piece, versions ascending. */
  lemma OrderedIs(batch: seq<Row>)
    ensures var o := Ordered(batch);
            && multiset(o) == multiset(batch)
            && (forall i, k | 0 <= i < k < |o| :: FirstIndex(batch, o[i].job) <= FirstIndex(batch, o[k].job))
            && (forall i, k | 0 <= i < k < |o| && o[i].job == o[k].job ::
                  && o[i].event.version <= o[k].event.version
                  && (o[i].event.version == o[k].event.version ==>
                        o[i].time < o[k].time || (o[i].time == o[k].time && o[i].id <= o[k].id)))
            && (forall i, m, k | 0 <= i < m < k < |o| && o[i].job == o[k].job :: o[m].job == o[i].job)
  {
    var o, notAfter := Ordered(batch), (x, y) => NotAfter(batch, x, y);
    SortedKeeps(batch, notAfter);
    forall i, k | 0 <= i < k < |o|
      ensures NotAfter(batch, o[i], o[k])
    {
      assert notAfter(o[i], o[k]);
    }
    forall i, m, k | 0 <= i < m < k < |o| && o[i].job == o[k].job ensures o[m].job == o[i].job {
      assert o[i] in multiset(batch) && o[m] in multiset(batch);
      OnePiece(batch, o[i], o[m], o[k]);
    }
  }

  lemma OnePiece(batch: seq<Row>, x: Row, y: Row, z: Row)
    requires x in batch && y in batch && x.job == z.job
    requires NotAfter(batch, x, y) && NotAfter(batch, y, z)
    ensures y.job == x.job
  {
    Present(batch, x);
    Present(batch, y);
  }

  lemma Present(batch: seq<Row>, x: Row)
    requires x in batch
    ensures FirstIndex(batch, x.job) < |batch|
  {
  }

  // ---- Subscriptions

  const MAX_SUBSCRIPTIONS := 20

  datatype Client = Client(actor: Option<Id>, jobs: set<Job>, inbox: seq<Row>)

  /** The event types that end the subscriptions of the Drivers they name. */
  predicate NamesDrivers(k: EventKind) {
    k.OfferRejected? || k.OfferExpired?
  }

  /** broadcast and then revoke, for one client. */
  function Follow(c: Client, x: Row): Client {
    var c1 := if c.actor.Some? && x.job in c.jobs then c.(inbox := c.inbox + [x]) else c;
    if TerminalKind(x.event.kind)
       || (x.job.Trip? && NamesDrivers(x.event.kind) && c.actor.Some? && c.actor.value in x.event.drivers)
    then c1.(jobs := c1.jobs - {x.job})
    else c1
  }

  function FollowAll(c: Client, rows: seq<Row>): Client
    decreases |rows|
  {
    if rows == [] then c else FollowAll(Follow(c, rows[0]), rows[1..])
  }

  // ---- Polling the outbox

  const PAGE_LIMIT := 100

  datatype Cursor = Cursor(time: int, id: Id)

  /** (occurred_at, id) > ($1, $2) */
  predicate Beyond(k: Cursor, x: Row) {
    k.time < x.time || (k.time == x.time && k.id < x.id)
  }

  function CursorOf(x: Row): Cursor {
    Cursor(x.time, x.id)
  }

  function Since(visible: seq<Row>, k: Cursor): seq<Row> {
    if visible == [] then []
    else if Beyond(k, visible[0]) then [visible[0]] + Since(visible[1..], k)
    else Since(visible[1..], k)
  }

  /** listOutboxAfter and listDeliveryOutboxAfter of the visible rows, given in the order of the query. */
  function Page(visible: seq<Row>, k: Cursor): seq<Row> {
    var rows := Since(visible, k);
    rows[..Min(|rows|, PAGE_LIMIT)]
  }

  function CursorAfter(visible: seq<Row>, k: Cursor): Cursor {
    var page := Page(visible, k);
    if page == [] then k else CursorOf(Last(page))
  }

  /**
   * What one row does to a client: who is signed in and subscribed receives it; the three terminal event
   * types end everyone's subscription, a rejection or an expiry that of the Drivers it names.
   */
  lemma RowEffect(c: Client, x: Row)
    ensures Follow(c, x).actor == c.actor
    ensures Follow(c, x).inbox == c.inbox + if c.actor.Some? && x.job in c.jobs then [x] else []
    ensures Follow(c, x).jobs ==
            match x.event.kind
            case CompletedEvent => c.jobs - {x.job}
            case CancelledEvent => c.jobs - {x.job}
            case NoDriverEvent => c.jobs - {x.job}
            case OfferRejected => if x.job.Trip? && c.actor.Some? && c.actor.value in x.event.drivers then c.jobs - {x.job} else c.jobs
            case OfferExpired => if x.job.Trip? && c.actor.Some? && c.actor.value in x.event.drivers then c.jobs - {x.job} else c.jobs
            case _ => c.jobs
  {
  }

  class Gateway {
    var clients: map<Id, Client>
    var cursor: Cursor
    var deliveryCursor: Cursor

    constructor (now: int)
      ensures clients == map[] && cursor == deliveryCursor == Cursor(now, 0)
    {
      clients, cursor, deliveryCursor := map[], Cursor(now, 0), Cursor(now, 0);
    }

    /** One poll: a page of Trip events, and then one of Delivery events. */
    method RelayOutbox(trips: seq<Row>, deliveries: seq<Row>)
      modifies this
      ensures cursor == CursorAfter(trips, old(cursor)) && deliveryCursor == CursorAfter(deliveries, old(deliveryCursor))
      ensures clients.Keys == old(clients.Keys)
      ensures forall c | c in old(clients) ::
                clients[c] == FollowAll(FollowAll(old(clients)[c], Ordered(Page(trips, old(cursor)))),
                                        Ordered(Page(deliveries, old(deliveryCursor))))
    {
      var page := Page(trips, cursor);
      if page != [] { cursor := CursorOf(Last(page)); }
      RelayBatch(page);
      page := Page(deliveries, deliveryCursor);
      if page != [] { deliveryCursor := CursorOf(Last(page)); }
      RelayBatch(page);
    }

    /** One event: sent to the clients subscribed to its aggregate, then the subscriptions it ends are revoked. */
    method RelayEvent(x: Row)
      modifies `clients
      ensures clients.Keys == old(clients.Keys)
      ensures forall c | c in old(clients) :: clients[c] == Follow(old(clients)[c], x)
    {
      clients := map c | c in clients ::
        if clients[c].actor.Some? && x.job in clients[c].jobs
        then clients[c].(inbox := clients[c].inbox + [x]) else clients[c];
      if TerminalKind(x.event.kind) {
        clients := map c | c in clients :: clients[c].(jobs := clients[c].jobs - {x.job});
      } else if x.job.Trip? && NamesDrivers(x.event.kind) && x.event.drivers != {} {
        clients := map c | c in clients ::
          if clients[c].actor.Some? && clients[c].actor.value in x.event.drivers
          then clients[c].(jobs := clients[c].jobs - {x.job}) else clients[c];
      }
    }

    /** The events of one batch, in order, each sent before it revokes. */
    method RelayBatch(batch: seq<Row>)
      modifies `clients
      ensures clients.Keys == old(clients.Keys)
      ensures forall c | c in old(clients) :: clients[c] == FollowAll(old(clients)[c], Ordered(batch))
    {
      hide Follow, Ordered;
      var rows := Ordered(batch);
      var i := 0;
      ghost var before := clients;
      while i < |rows|
        invariant 0 <= i <= |rows| && clients.Keys == before.Keys
        invariant forall c | c in before :: FollowAll(clients[c], rows[i..]) == FollowAll(before[c], rows)
      {
        assert rows[i..][0] == rows[i] && rows[i..][1..] == rows[i + 1..];
        RelayEvent(rows[i]);
        i := i + 1;
      }
    }

    /** addTripSubscription and addDeliverySubscription */
    method Subscribe(client: Id, j: Job) returns (ok: bool)
      requires client in clients && |clients[client].jobs| <= 20
      modifies this
      ensures ok <==> j in old(clients)[client].jobs || |old(clients)[client].jobs| < 20
      ensures clients == old(clients)[client := old(clients)[client].(
                jobs := if ok then old(clients)[client].jobs + {j} else old(clients)[client].jobs)]
      ensures |clients[client].jobs| <= 20
    {
      var c := clients[client];
      if j in c.jobs {
        assert c.jobs + {j} == c.jobs;
        return true;
      }
      if |c.jobs| >= MAX_SUBSCRIPTIONS { return false; }
      clients := clients[client := c.(jobs := c.jobs + {j})];
      return true;
    }
  }

  // ---- Nothing is sent after the event that revokes

  /** The batch holds rows of the database's outbox, none twice; their ids are a primary key. */
  ghost predicate FromOutbox(batch: seq<Row>, n: Journal) {
    && (forall i, k | 0 <= i < k < |batch| :: batch[i].id != batch[k].id)
    && (forall i | 0 <= i < |batch| ::
          && batch[i].job in n.outbox && batch[i].at < |n.outbox[batch[i].job]|
          && batch[i].event == n.outbox[batch[i].job][batch[i].at])
    && (forall i, k | 0 <= i < k < |batch| && batch[i].job == batch[k].job :: batch[i].at != batch[k].at)
  }

  /** No row follows a terminal row of the same aggregate. */
  ghost predicate TerminalLast(rows: seq<Row>) {
    forall i, k | 0 <= i < k < |rows| && rows[i].job == rows[k].job :: !TerminalKind(rows[i].event.kind)
  }

  lemma EarlierVersion(db: Db, x: Row, y: Row)
    requires Inv(db) && x.job == y.job && x.at != y.at && x.job in db.core.jobs && x.job in db.journal.outbox
    requires x.at < |db.journal.outbox[x.job]| && x.event == db.journal.outbox[x.job][x.at]
    requires y.at < |db.journal.outbox[x.job]| && y.event == db.journal.outbox[x.job][y.at]
    requires TerminalKind(x.event.kind)
    ensures y.event.version < x.event.version
  {
    hide Inv, Holds, Linked, Settled, Told, Chain;
    var ix := Witness(db);
    assert JournalOk(db.core, ix, db.journal, x.job);
  }

  lemma OutboxJobs(db: Db)
    requires Inv(db)
    ensures db.journal.outbox.Keys == db.core.jobs.Keys
  {
    hide Inv, Holds, Sound;
    var ix := Witness(db);
    OutboxKeys(db, ix);
  }

  /** A terminal row has a higher version than any other of its aggregate. */
  ghost predicate TerminalNewest(rows: seq<Row>) {
    forall i, k | 0 <= i < |rows| && 0 <= k < |rows| && i != k && rows[i].job == rows[k].job && TerminalKind(rows[i].event.kind) ::
      rows[k].event.version < rows[i].event.version
  }

  lemma NewestSentLast(page: seq<Row>)
    requires Distinct(page) && TerminalNewest(page)
    ensures TerminalLast(Ordered(page))
  {
    var o := Ordered(page);
    OrderedIs(page);
    PermutationDistinct(page, o);
    forall i, k | 0 <= i < k < |o| && o[i].job == o[k].job ensures !TerminalKind(o[i].event.kind) {
      assert o[i] in multiset(page) && o[k] in multiset(page);
      var a :| 0 <= a < |page| && page[a] == o[i];
      var b :| 0 <= b < |page| && page[b] == o[k];
    }
  }

  lemma OutboxNewest(db: Db, rows: seq<Row>)
    requires Inv(db) && FromOutbox(rows, db.journal)
    ensures TerminalNewest(rows)
  {
    hide Inv;
    OutboxJobs(db);
    forall i, k | 0 <= i < |rows| && 0 <= k < |rows| && i != k && rows[i].job == rows[k].job && TerminalKind(rows[i].event.kind)
      ensures rows[k].event.version < rows[i].event.version
    {
      assert rows[i].at != rows[k].at;
      EarlierVersion(db, rows[i], rows[k]);
    }
  }

  /** In the order of sending, a terminal event of the log comes last of its aggregate. */
  lemma OrderedTerminalLast(db: Db, batch: seq<Row>)
    requires Inv(db) && FromOutbox(batch, db.journal)
    ensures TerminalLast(Ordered(batch))
  {
    hide Inv;
    OutboxNewest(db, batch);
    NewestSentLast(batch);
  }

  function Of(rows: seq<Row>, j: Job): seq<Row> {
    if rows == [] then [] else (if rows[0].job == j then [rows[0]] else []) + Of(rows[1..], j)
  }

  lemma {:induction false} OfSum(a: seq<Row>, b: seq<Row>, j: Job)
    ensures Of(a + b, j) == Of(a, j) + Of(b, j)
  {
    if a == [] {
      assert a + b == b;
    } else {
      assert (a + b)[0] == a[0] && (a + b)[1..] == a[1..] + b;
      OfSum(a[1..], b, j);
    }
  }

  /** No row about the aggregate takes the client's subscription away before the end. */
  ghost predicate Spared(c: Client, rows: seq<Row>, j: Job) {
    forall i | 0 <= i < |rows| && rows[i].job == j && j.Trip? && (rows[i].event.kind.OfferRejected? || rows[i].event.kind.OfferExpired?) ::
      c.actor.Some? && c.actor.value !in rows[i].event.drivers
  }

  /**
   * A subscriber receives every row of the aggregate, in order, and is subscribed afterwards unless
   * one of them was terminal.
   */
  lemma {:induction false} ReceivesAll(c: Client, rows: seq<Row>, j: Job)
    requires c.actor.Some? && j in c.jobs && TerminalLast(rows) && Spared(c, rows, j)
    ensures Of(FollowAll(c, rows).inbox, j) == Of(c.inbox, j) + Of(rows, j)
    ensures j in FollowAll(c, rows).jobs <==>
              forall i | 0 <= i < |rows| && rows[i].job == j :: !TerminalKind(rows[i].event.kind)
    decreases |rows|
  {
    if rows != [] {
      var c1, x, rest := Follow(c, rows[0]), rows[0], rows[1..];
      OfSum(c.inbox, [x], j);
      assert Of([x], j) == (if x.job == j then [x] else []) by { assert [x][1..] == []; }
      assert forall i | 0 <= i < |rest| :: rest[i] == rows[i + 1];
      if x.job == j && TerminalKind(x.event.kind) {
        assert forall i | 0 <= i < |rest| :: rest[i].job != j;
        Unsubscribed(c1, rest, j);
        NoneOf(rest, j);
      } else {
        ReceivesAll(c1, rest, j);
      }
    }
  }

  lemma {:induction false} NoneOf(rows: seq<Row>, j: Job)
    requires forall i | 0 <= i < |rows| :: rows[i].job != j
    ensures Of(rows, j) == []
  {
    if rows != [] { NoneOf(rows[1..], j); }
  }

  /** Who is not subscribed receives nothing. */
  lemma {:induction false} Unsubscribed(c: Client, rows: seq<Row>, j: Job)
    requires j !in c.jobs
    ensures Of(FollowAll(c, rows).inbox, j) == Of(c.inbox, j) && j !in FollowAll(c, rows).jobs
    decreases |rows|
  {
    if rows != [] {
      OfSum(c.inbox, [rows[0]], j);
      assert rows[0].job != j ==> Of([rows[0]], j) == [] by { assert [rows[0]][1..] == []; }
      Unsubscribed(Follow(c, rows[0]), rows[1..], j);
    }
  }

  /** A Driver named by a rejection or expiry receives it, and nothing of the Trip after it. */
  lemma NamedIsCutOff(c: Client, rows: seq<Row>, k: nat)
    requires k < |rows| && c.actor.Some? && rows[k].job.Trip?
    requires rows[k].event.kind.OfferRejected? || rows[k].event.kind.OfferExpired?
    requires c.actor.value in rows[k].event.drivers
    ensures var j := rows[k].job;
            && j !in FollowAll(c, rows).jobs
            && Of(FollowAll(c, rows).inbox, j) == Of(FollowAll(c, rows[..k + 1]).inbox, j)
  {
    FollowSplit(c, rows, k + 1);
    FollowSplit(c, rows[..k + 1], k);
    assert rows[..k + 1][..k] == rows[..k] && rows[..k + 1][k..] == [rows[k]];
    SameActor(c, rows[..k]);
    var c1 := FollowAll(c, rows[..k]);
    assert [rows[k]][1..] == [];
    assert FollowAll(c1, [rows[k]]) == Follow(c1, rows[k]);
    Unsubscribed(FollowAll(c, rows[..k + 1]), rows[k + 1..], rows[k].job);
  }

  lemma {:induction false} FollowSplit(c: Client, rows: seq<Row>, k: nat)
    requires k <= |rows|
    ensures FollowAll(c, rows) == FollowAll(FollowAll(c, rows[..k]), rows[k..])
    decreases k
  {
    if k > 0 {
      assert rows[..k][0] == rows[0] && rows[..k][1..] == rows[1..][..k - 1] && rows[k..] == rows[1..][k - 1..];
      FollowSplit(Follow(c, rows[0]), rows[1..], k - 1);
    } else {
      assert rows[..0] == [] && rows[0..] == rows;
    }
  }

  lemma {:induction false} SameActor(c: Client, rows: seq<Row>)
    ensures FollowAll(c, rows).actor == c.actor
    decreases |rows|
  {
    if rows != [] { SameActor(Follow(c, rows[0]), rows[1..]); }
  }

  // ---- Across polls

  /** ORDER BY occurred_at ASC, id ASC */
  predicate QueryOrder(rows: seq<Row>) {
    forall i, k | 0 <= i < k < |rows| ::
      rows[i].time < rows[k].time || (rows[i].time == rows[k].time && rows[i].id < rows[k].id)
  }

  /** The cursor stands before rows[p]. */
  predicate StandsAt(k: Cursor, rows: seq<Row>, p: nat) {
    && p <= |rows|
    && (forall i | 0 <= i < p :: rows[i].time < k.time || (rows[i].time == k.time && rows[i].id <= k.id))
    && (forall i | p <= i < |rows| :: k.time < rows[i].time || (k.time == rows[i].time && k.id < rows[i].id))
  }

  /** How far a poll gets that sees the first v rows: a hundred further at most. */
  function EndOf(p: nat, v: nat): nat {
    if v <= p then p else Min(v, p + 100)
  }

  /** Where polls that see the first vs[0], vs[1], ... rows cut the table. */
  function Cuts(p: nat, vs: seq<nat>): seq<nat>
    decreases |vs|
  {
    if vs == [] then [] else [EndOf(p, vs[0])] + Cuts(EndOf(p, vs[0]), vs[1..])
  }

  /** One client under such polls. */
  function Polled(c: Client, k: Cursor, rows: seq<Row>, vs: seq<nat>): Client
    requires forall i | 0 <= i < |vs| :: vs[i] <= |rows|
    decreases |vs|
  {
    if vs == [] then c else
    var visible := rows[..vs[0]];
    Polled(FollowAll(c, Ordered(Page(visible, k))), CursorAfter(visible, k), rows, vs[1..])
  }

  predicate Cutting(rows: seq<Row>, p: nat, cuts: seq<nat>)
    decreases |cuts|
  {
    if cuts == [] then p <= |rows| else p <= cuts[0] <= |rows| && Cutting(rows, cuts[0], cuts[1..])
  }

  function Stop(p: nat, cuts: seq<nat>): nat
    decreases |cuts|
  {
    if cuts == [] then p else Stop(cuts[0], cuts[1..])
  }

  /** One client under the pages between the cuts. */
  function FollowPages(c: Client, rows: seq<Row>, p: nat, cuts: seq<nat>): Client
    requires Cutting(rows, p, cuts)
    decreases |cuts|
  {
    if cuts == [] then c else FollowPages(FollowAll(c, Ordered(rows[p..cuts[0]])), rows, cuts[0], cuts[1..])
  }

  lemma {:induction false} SinceIs(rows: seq<Row>, k: Cursor, p: nat)
    requires StandsAt(k, rows, p)
    ensures Since(rows, k) == rows[p..]
    decreases |rows|
  {
    if rows != [] {
      SinceIs(rows[1..], k, if p == 0 then 0 else p - 1);
      if p > 0 { assert rows[p..] == rows[1..][p - 1..]; }
    }
  }

  /** A poll relays the next rows that it sees, up to the limit, and the cursor follows. */
  lemma PageIsNext(rows: seq<Row>, k: Cursor, p: nat, v: nat)
    requires QueryOrder(rows) && StandsAt(k, rows, p) && v <= |rows|
    ensures p <= EndOf(p, v) <= |rows|
    ensures Page(rows[..v], k) == rows[p..EndOf(p, v)] && StandsAt(CursorAfter(rows[..v], k), rows, EndOf(p, v))
  {
    var q, visible := EndOf(p, v), rows[..v];
    SinceIs(visible, k, Min(p, v));
    assert v > p ==> visible[p..] == rows[p..v];
    assert Page(visible, k) == rows[p..q];
    if q > p { assert Last(rows[p..q]) == rows[q - 1]; }
  }

  lemma {:induction false} PolledIsPages(c: Client, k: Cursor, rows: seq<Row>, p: nat, vs: seq<nat>)
    requires QueryOrder(rows) && StandsAt(k, rows, p) && forall i | 0 <= i < |vs| :: vs[i] <= |rows|
    ensures Cutting(rows, p, Cuts(p, vs)) && Polled(c, k, rows, vs) == FollowPages(c, rows, p, Cuts(p, vs))
    decreases |vs|
  {
    hide QueryOrder, StandsAt, Page, CursorAfter, Ordered;
    if vs != [] {
      PageIsNext(rows, k, p, vs[0]);
      PolledIsPages(FollowAll(c, Ordered(Page(rows[..vs[0]], k))), CursorAfter(rows[..vs[0]], k), rows, EndOf(p, vs[0]), vs[1..]);
      assert Cuts(p, vs)[0] == EndOf(p, vs[0]) && Cuts(p, vs)[1..] == Cuts(EndOf(p, vs[0]), vs[1..]);
    } else {
      Standing(k, rows, p);
    }
  }

  lemma Standing(k: Cursor, rows: seq<Row>, p: nat)
    requires StandsAt(k, rows, p)
    ensures p <= |rows|
  {
  }

  /** No cut falls between a terminal row of the aggregate and a later one. */
  predicate Uncut(rows: seq<Row>, p: nat, cuts: seq<nat>, j: Job)
    requires Stop(p, cuts) <= |rows|
  {
    forall a, b, q | p <= a < b < Stop(p, cuts) && q in cuts && rows[a].job == j == rows[b].job
                     && TerminalKind(rows[a].event.kind) :: !(a < q <= b)
  }

  lemma {:induction false} StopsWithin(rows: seq<Row>, p: nat, cuts: seq<nat>)
    requires Cutting(rows, p, cuts)
    ensures p <= Stop(p, cuts) <= |rows| && forall i | 0 <= i < |cuts| :: p <= cuts[i] <= Stop(p, cuts)
    decreases |cuts|
  {
    if cuts != [] {
      StopsWithin(rows, cuts[0], cuts[1..]);
      assert forall i | 0 < i < |cuts| :: cuts[i] == cuts[1..][i - 1];
    }
  }

  /** The client holds, besides what it held, every relayed row of the aggregate. */
  ghost predicate HoldsAll(c: Client, c': Client, rows: seq<Row>, j: Job) {
    multiset(Of(c'.inbox, j)) == multiset(Of(c.inbox, j)) + multiset(Of(rows, j))
  }

  lemma {:induction false} OfCounts(rows: seq<Row>, j: Job, x: Row)
    ensures multiset(Of(rows, j))[x] == if x.job == j then multiset(rows)[x] else 0
  {
    if rows != [] {
      OfCounts(rows[1..], j, x);
      assert rows == [rows[0]] + rows[1..];
    }
  }

  lemma OfPermuted(a: seq<Row>, b: seq<Row>, j: Job)
    requires multiset(a) == multiset(b)
    ensures multiset(Of(a, j)) == multiset(Of(b, j))
  {
    forall x ensures multiset(Of(a, j))[x] == multiset(Of(b, j))[x] {
      OfCounts(a, j, x);
      OfCounts(b, j, x);
    }
  }

  lemma {:induction false} SomeOf(rows: seq<Row>, j: Job, i: nat)
    requires i < |rows| && rows[i].job == j
    ensures Of(rows, j) != []
  {
    if i > 0 { SomeOf(rows[1..], j, i - 1); }
  }

  /** A page to a subscriber whom it spares. */
  lemma PageReceived(c: Client, page: seq<Row>, j: Job)
    requires c.actor.Some? && j in c.jobs && Distinct(page) && TerminalNewest(page) && Spared(c, page, j)
    ensures var c1 := FollowAll(c, Ordered(page));
            && HoldsAll(c, c1, page, j) && c1.actor == c.actor
            && (j in c1.jobs <==> forall i | 0 <= i < |page| && page[i].job == j :: !TerminalKind(page[i].event.kind))
  {
    var o := Ordered(page);
    NewestSentLast(page);
    OrderedIs(page);
    hide Ordered, TerminalLast;
    forall i | 0 <= i < |o| ensures o[i] in page { assert o[i] in multiset(page); }
    forall i | 0 <= i < |page| ensures page[i] in o { assert page[i] in multiset(o); }
    assert Spared(c, o, j);
    ReceivesAll(c, o, j);
    OfPermuted(o, page, j);
    SameActor(c, o);
  }

  lemma {:induction false} UnsubscribedPages(c: Client, rows: seq<Row>, p: nat, cuts: seq<nat>, j: Job)
    requires Cutting(rows, p, cuts) && j !in c.jobs
    ensures Of(FollowPages(c, rows, p, cuts).inbox, j) == Of(c.inbox, j)
    decreases |cuts|
  {
    if cuts != [] {
      Unsubscribed(c, Ordered(rows[p..cuts[0]]), j);
      UnsubscribedPages(FollowAll(c, Ordered(rows[p..cuts[0]])), rows, cuts[0], cuts[1..], j);
    }
  }

  lemma Slice(rows: seq<Row>, c: Client, p: nat, q: nat, j: Job)
    requires QueryOrder(rows) && TerminalNewest(rows) && p <= q <= |rows| && Spared(c, rows, j)
    ensures Distinct(rows[p..q]) && TerminalNewest(rows[p..q]) && Spared(c, rows[p..q], j)
  {
    var page := rows[p..q];
    assert forall i | 0 <= i < |page| :: page[i] == rows[p + i];
    forall i, k | 0 <= i < k < |page| ensures page[i] != page[k] {
      assert rows[p + i] != rows[p + k];
    }
    forall i, k | 0 <= i < |page| && 0 <= k < |page| && i != k && page[i].job == page[k].job && TerminalKind(page[i].event.kind)
      ensures page[k].event.version < page[i].event.version
    {
      assert rows[p + k].event.version < rows[p + i].event.version;
    }
  }

  lemma SparedAlike(c: Client, c1: Client, rows: seq<Row>, j: Job)
    requires Spared(c, rows, j) && c1.actor == c.actor
    ensures Spared(c1, rows, j)
  {
  }

  /** After a page without a terminal row of the aggregate, the rest decides. */
  lemma UncutRest(rows: seq<Row>, p: nat, cuts: seq<nat>, j: Job)
    requires Cutting(rows, p, cuts) && cuts != [] && Stop(p, cuts) <= |rows|
    requires forall i | p <= i < cuts[0] && rows[i].job == j :: !TerminalKind(rows[i].event.kind)
    ensures Stop(cuts[0], cuts[1..]) <= |rows| && (Uncut(rows, p, cuts, j) <==> Uncut(rows, cuts[0], cuts[1..], j))
  {
    if Uncut(rows, p, cuts, j) {
      assert forall q | q in cuts[1..] :: q in cuts;
    }
    if Uncut(rows, cuts[0], cuts[1..], j) {
      forall a, b, q | p <= a < b < Stop(p, cuts) && q in cuts && rows[a].job == j == rows[b].job
                       && TerminalKind(rows[a].event.kind)
        ensures !(a < q <= b)
      {
        assert q == cuts[0] || q in cuts[1..];
      }
    }
  }

  /** After a page with one, no row of the aggregate may follow. */
  lemma UncutOver(rows: seq<Row>, p: nat, cuts: seq<nat>, j: Job, a: nat)
    requires Cutting(rows, p, cuts) && cuts != [] && p <= a < cuts[0]
    requires rows[a].job == j && TerminalKind(rows[a].event.kind)
    ensures Stop(p, cuts) <= |rows| && cuts[0] <= Stop(p, cuts)
    ensures Uncut(rows, p, cuts, j) <==> Of(rows[cuts[0]..Stop(p, cuts)], j) == []
  {
    StopsWithin(rows, p, cuts);
    StopsWithin(rows, cuts[0], cuts[1..]);
    var rest := rows[cuts[0]..Stop(p, cuts)];
    assert cuts[0] in cuts;
    if Of(rest, j) == [] {
      forall b | cuts[0] <= b < Stop(p, cuts) ensures rows[b].job != j {
        if rows[b].job == j { SomeOf(rest, j, b - cuts[0]); }
      }
      forall a', b, q | p <= a' < b < Stop(p, cuts) && q in cuts && rows[a'].job == j == rows[b].job
                        && TerminalKind(rows[a'].event.kind)
        ensures !(a' < q <= b)
      {
        assert cuts[0] <= q;
      }
    } else {
      Found(rest, j);
      var i :| 0 <= i < |rest| && rest[i].job == j;
      assert rows[cuts[0] + i].job == j;
    }
  }

  lemma {:induction false} Found(rows: seq<Row>, j: Job)
    requires Of(rows, j) != []
    ensures exists i :: 0 <= i < |rows| && rows[i].job == j
  {
    if rows[0].job != j {
      Found(rows[1..], j);
      var i :| 0 <= i < |rows[1..]| && rows[1..][i].job == j;
      assert rows[i + 1].job == j;
    }
  }

  /**
   * Whom the rows about an aggregate spare receives all of them, over any pages, exactly when no page
   * ends between a terminal row of the aggregate and a later one.
   */
  lemma {:induction false} PagesReceivedIff(c: Client, rows: seq<Row>, p: nat, cuts: seq<nat>, j: Job)
    requires QueryOrder(rows) && TerminalNewest(rows) && Cutting(rows, p, cuts)
    requires c.actor.Some? && j in c.jobs && Spared(c, rows, j)
    ensures p <= Stop(p, cuts) <= |rows|
    ensures HoldsAll(c, FollowPages(c, rows, p, cuts), rows[p..Stop(p, cuts)], j) <==> Uncut(rows, p, cuts, j)
    decreases |cuts|
  {
    hide QueryOrder, TerminalNewest, Spared, Ordered, FollowAll, HoldsAll, Uncut;
    StopsWithin(rows, p, cuts);
    if cuts == [] {
      NothingRelayed(c, rows, p, j);
    } else {
      var q, stop := cuts[0], Stop(p, cuts);
      var page, rest := rows[p..q], rows[q..stop];
      var c1 := FollowAll(c, Ordered(page));
      StopsWithin(rows, q, cuts[1..]);
      Slice(rows, c, p, q, j);
      PageReceived(c, page, j);
      assert rows[p..stop] == page + rest;
      assert forall i | 0 <= i < |page| :: page[i] == rows[p + i];
      var c' := FollowPages(c1, rows, q, cuts[1..]);
      HoldsBoth(c, c1, c', page, rest, j);
      if j in c1.jobs {
        SparedAlike(c, c1, rows, j);
        forall i | p <= i < q && rows[i].job == j ensures !TerminalKind(rows[i].event.kind) { assert page[i - p] == rows[i]; }
        UncutRest(rows, p, cuts, j);
        PagesReceivedIff(c1, rows, q, cuts[1..], j);
      } else {
        var i :| 0 <= i < |page| && page[i].job == j && TerminalKind(page[i].event.kind);
        UncutOver(rows, p, cuts, j, p + i);
        UnsubscribedPages(c1, rows, q, cuts[1..], j);
        HoldsNothing(c1, c', rest, j);
      }
    }
  }

  lemma NothingRelayed(c: Client, rows: seq<Row>, p: nat, j: Job)
    requires p <= |rows|
    ensures HoldsAll(c, c, rows[p..p], j) && Uncut(rows, p, [], j)
  {
    assert rows[p..p] == [];
  }

  lemma HoldsBoth(c: Client, c1: Client, c': Client, page: seq<Row>, rest: seq<Row>, j: Job)
    requires HoldsAll(c, c1, page, j)
    ensures HoldsAll(c, c', page + rest, j) <==> HoldsAll(c1, c', rest, j)
  {
    OfSum(page, rest, j);
    var a, b, d := multiset(Of(c.inbox, j)), multiset(Of(page, j)), multiset(Of(rest, j));
    assert a + (b + d) == (a + b) + d;
  }

  lemma HoldsNothing(c1: Client, c': Client, rest: seq<Row>, j: Job)
    requires Of(c'.inbox, j) == Of(c1.inbox, j)
    ensures HoldsAll(c1, c', rest, j) <==> Of(rest, j) == []
  {
    var a, b := multiset(Of(c1.inbox, j)), multiset(Of(rest, j));
    if a == a + b {
      assert |a| == |a| + |b|;
    }
  }

  /**
   * Under polls of the outbox of a reachable database, each seeing some of its first rows, a subscriber
   * whom they spare receives every row of the aggregate that is relayed exactly when no page of at most
   * a hundred rows ends between a terminal row of the aggregate and a later one.
   */
  lemma PollingReceivesIff(db: Db, c: Client, k: Cursor, rows: seq<Row>, vs: seq<nat>, j: Job)
    requires Inv(db) && FromOutbox(rows, db.journal) && QueryOrder(rows) && StandsAt(k, rows, 0)
    requires forall i | 0 <= i < |vs| :: vs[i] <= |rows|
    requires c.actor.Some? && j in c.jobs && Spared(c, rows, j)
    ensures Stop(0, Cuts(0, vs)) <= |rows|
    ensures HoldsAll(c, Polled(c, k, rows, vs), rows[..Stop(0, Cuts(0, vs))], j) <==> Uncut(rows, 0, Cuts(0, vs), j)
  {
    hide Inv, FromOutbox, QueryOrder, StandsAt, Spared, HoldsAll, Uncut, Cuts, Polled, Stop, TerminalNewest;
    OutboxNewest(db, rows);
    PolledIsPages(c, k, rows, 0, vs);
    PagesReceivedIff(c, rows, 0, Cuts(0, vs), j);
    assert rows[0..Stop(0, Cuts(0, vs))] == rows[..Stop(0, Cuts(0, vs))];
  }
}
