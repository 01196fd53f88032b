/**
 * How the web client keeps up (apps/web/src/App.tsx): version-guarded merging of snapshots and
 * events, the bounded set of remembered events, and the newest Driver location.
 */
module ClientMerge {
  import opened Basics
  import opened Tables
  import opened Journals
  import opened Steps
  import opened Runs

  /** The part of a Trip or Delivery on screen that messages change. */
  datatype View = View(state: State, version: nat, driver: Option<Id>, fare: Option<int>)

  /** What a message carries; an absent field keeps the one on screen. */
  datatype Patch = Patch(state: Option<State>, version: Option<nat>, driver: Option<Option<Id>>, fare: Option<Option<int>>)

  function Or<T>(x: Option<T>, y: T): T {
    if x.Some? then x.value else y
  }

  /** mergeRealtimeTrip and mergeRealtimeDelivery */
  function MergeSnapshot(current: View, next: Patch): View {
    if next.state.None? || next.version.None? || next.version.value < current.version then current
    else View(next.state.value, next.version.value, Or(next.driver, current.driver), Or(next.fare, current.fare))
  }

  /** mergeRealtimeTripEvent and mergeRealtimeDeliveryEvent */
  function MergeEvent(current: View, next: Patch): View {
    if next.version.None? || next.version.value <= current.version then current else MergeSnapshot(current, next)
  }

  datatype Message = Snapshot(patch: Patch) | EventMessage(id: Id, patch: Patch)

  function Merge(current: View, m: Message): View {
    match m
    case Snapshot(patch) => MergeSnapshot(current, patch)
    case EventMessage(_, patch) => MergeEvent(current, patch)
  }

  /**
   * A snapshot with a state and a version no older than the screen's, or an event with a state and a
   * newer version, is what the screen then shows, field by field where it has the field; nothing else
   * changes the screen.
   */
  lemma ShownAfter(v: View, m: Message)
    ensures var v', p := Merge(v, m), m.patch;
            if p.state.Some? && p.version.Some? && (if m.Snapshot? then p.version.value >= v.version else p.version.value > v.version) then
              && v'.state == p.state.value && v'.version == p.version.value
              && (p.driver.Some? ==> v'.driver == p.driver.value) && (p.driver.None? ==> v'.driver == v.driver)
              && (p.fare.Some? ==> v'.fare == p.fare.value) && (p.fare.None? ==> v'.fare == v.fare)
            else v' == v
  {
  }

  function MergeAll(current: View, messages: seq<Message>): View
    decreases |messages|
  {
    if messages == [] then current else MergeAll(Merge(current, messages[0]), messages[1..])
  }

  // ---- Convergence

  /** The message says of some version what the server's log says of it. */
  ghost predicate Truthful(m: Message, log: seq<Transition>) {
    m.patch.state.Some? && m.patch.version.Some? ==>
      m.patch.version.value < |log| && m.patch.state.value == log[m.patch.version.value].to
  }

  ghost predicate TruthfulView(v: View, log: seq<Transition>) {
    v.version < |log| && v.state == log[v.version].to
  }

  predicate Stateful(m: Message) {
    m.patch.state.Some? && m.patch.version.Some?
  }

  /** The greatest version that the screen or a state-carrying message shows. */
  function Newest(version: nat, messages: seq<Message>): (v: nat)
    ensures version <= v
    ensures forall i | 0 <= i < |messages| && Stateful(messages[i]) :: messages[i].patch.version.value <= v
    ensures v == version || exists i :: 0 <= i < |messages| && Stateful(messages[i]) && messages[i].patch.version.value == v
  {
    if messages == [] then version
    else
      var v := Newest(version, messages[1..]);
      assert forall i | 0 < i < |messages| :: messages[1..][i - 1] == messages[i];
      if Stateful(messages[0]) && messages[0].patch.version.value > v then messages[0].patch.version.value else v
  }

  /**
   * Whatever the order and however often repeated, the screen ends at the newest version shown to
   * it, in the state the log has there.
   */
  lemma {:induction false} Converges(v: View, messages: seq<Message>, log: seq<Transition>)
    requires TruthfulView(v, log) && forall i | 0 <= i < |messages| :: Truthful(messages[i], log)
    ensures TruthfulView(MergeAll(v, messages), log)
    ensures MergeAll(v, messages).version == Newest(v.version, messages)
    decreases |messages|
  {
    if messages != [] {
      var v1 := Merge(v, messages[0]);
      Converges(v1, messages[1..], log);
      NewestStep(v.version, messages);
    }
  }

  lemma {:induction false} NewestFrom(a: nat, messages: seq<Message>)
    ensures Newest(a, messages) == Max(a, Newest(0, messages))
  {
    if messages != [] { NewestFrom(a, messages[1..]); }
  }

  lemma NewestStep(version: nat, messages: seq<Message>)
    requires messages != []
    ensures Newest(version, messages) ==
            Newest(if Stateful(messages[0]) then Max(version, messages[0].patch.version.value) else version, messages[1..])
  {
    NewestFrom(version, messages[1..]);
    NewestFrom(if Stateful(messages[0]) then Max(version, messages[0].patch.version.value) else version, messages[1..]);
  }

  /** Two deliveries of the same messages, in any order and number, leave the same state and version. */
  lemma OrderDoesNotMatter(v: View, a: seq<Message>, b: seq<Message>, log: seq<Transition>)
    requires TruthfulView(v, log) && forall i | 0 <= i < |a| :: Truthful(a[i], log)
    requires forall m :: m in a <==> m in b
    ensures MergeAll(v, a).version == MergeAll(v, b).version && MergeAll(v, a).state == MergeAll(v, b).state
  {
    forall i | 0 <= i < |b| ensures Truthful(b[i], log) { assert b[i] in a; }
    Converges(v, a, log);
    Converges(v, b, log);
    SameNewest(v.version, a, b);
    SameNewest(v.version, b, a);
  }

  lemma SameNewest(version: nat, a: seq<Message>, b: seq<Message>)
    requires forall m :: m in a ==> m in b
    ensures Newest(version, a) <= Newest(version, b)
  {
    var v := Newest(version, a);
    if v != version {
      var i :| 0 <= i < |a| && Stateful(a[i]) && a[i].patch.version.value == v;
      assert a[i] in b;
    }
  }

  /** The events of a reachable database's outbox are truthful, so the client converges to its log. */
  lemma OutboxIsTruthful(db: Db, j: Job, e: Event, id: Id)
    requires Inv(db) && j in db.core.jobs && Known(db, j) && e in db.journal.outbox[j]
    ensures Truthful(EventMessage(id, Patch(e.carried, Some(e.version), None, None)), db.journal.log[j])
  {
    hide Inv, Holds, Chain, Closed;
    var ix := Witness(db);
    assert JournalOk(db.core, ix, db.journal, j);
  }

  // ---- Remembered events

  const REMEMBERED := 256

  /** rememberRealtimeEvent on a Set in insertion order; the event is ignored when it answers false. */
  method Remember(seen: seq<Id>, id: Id) returns (unseen: bool, seen': seq<Id>)
    requires |seen| <= 256
    ensures unseen == (id !in seen) && seen' == Remembering(seen, id) && |seen'| <= 256
    ensures id in seen ==> seen' == seen
    ensures id !in seen ==> seen' == (if |seen| == 256 then seen[1..] else seen) + [id]
  {
    if id in seen { return false, seen; }
    seen' := seen + [id];
    if |seen'| > REMEMBERED { seen' := seen'[1..]; }
    return true, seen';
  }

  function Remembering(seen: seq<Id>, id: Id): seq<Id> {
    if id in seen then seen
    else if |seen| >= REMEMBERED then seen[1..] + [id]
    else seen + [id]
  }

  /** Messages as the client takes them, events that it remembers left out. */
  function MergeUnseen(current: View, seen: seq<Id>, messages: seq<Message>): View
    decreases |messages|
  {
    if messages == [] then current else
    match messages[0]
    case Snapshot(patch) => MergeUnseen(MergeSnapshot(current, patch), seen, messages[1..])
    case EventMessage(id, patch) =>
      if id in seen then MergeUnseen(current, seen, messages[1..])
      else MergeUnseen(MergeEvent(current, patch), Remembering(seen, id), messages[1..])
  }

  /** An id stands for one event. */
  ghost predicate OneEventEach(messages: seq<Message>) {
    forall i, k | 0 <= i < |messages| && 0 <= k < |messages| && messages[i].EventMessage? && messages[k].EventMessage?
                  && messages[i].id == messages[k].id :: messages[i] == messages[k]
  }

  /** What is remembered has been merged: its event, should it come again, changes nothing. */
  ghost predicate Merged(v: View, seen: seq<Id>, messages: seq<Message>) {
    forall i | 0 <= i < |messages| && messages[i].EventMessage? && messages[i].id in seen :: Merge(v, messages[i]) == v
  }

  lemma MergeGrows(v: View, m: Message)
    ensures v.version <= Merge(v, m).version
    ensures m.EventMessage? ==> Merge(Merge(v, m), m) == Merge(v, m)
  {
  }

  /** An event that has no effect on a view has none on a later one. */
  lemma StaysMerged(v: View, v': View, m: Message)
    requires m.EventMessage? && Merge(v, m) == v && v.version <= v'.version
    requires Stateful(m) ==> m.patch.version.value <= v.version
    ensures Merge(v', m) == v'
  {
  }

  lemma NoEffect(v: View, m: Message)
    requires m.EventMessage? && Merge(v, m) == v
    ensures Stateful(m) ==> m.patch.version.value <= v.version
  {
  }

  /** Remembering events, and forgetting the oldest of them, never changes what the screen shows. */
  lemma {:induction false} ForgettingIsHarmless(v: View, seen: seq<Id>, messages: seq<Message>)
    requires OneEventEach(messages) && Merged(v, seen, messages)
    ensures MergeUnseen(v, seen, messages) == MergeAll(v, messages)
    decreases |messages|
  {
    if messages != [] {
      var m, rest := messages[0], messages[1..];
      var v1 := Merge(v, m);
      MergeGrows(v, m);
      var seen1 := if m.EventMessage? && m.id !in seen then Remembering(seen, m.id) else seen;
      forall i | 0 <= i < |rest| && rest[i].EventMessage? && rest[i].id in seen1 ensures Merge(v1, rest[i]) == v1 {
        assert rest[i] == messages[i + 1];
        if rest[i].id in seen {
          assert Merge(v, messages[i + 1]) == v;
          NoEffect(v, rest[i]);
          StaysMerged(v, v1, rest[i]);
        } else {
          assert rest[i] == messages[0];
        }
      }
      assert forall i | 0 <= i < |rest| :: rest[i] == messages[i + 1];
      ForgettingIsHarmless(v1, seen1, rest);
    }
  }

  // ---- Driver locations

  /** Epoch milliseconds, None for a text that Date.parse rejects. */
  datatype Location = Location(captured: Option<int>, received: Option<int>, place: int)

  /** isNewerDriverLocation */
  predicate IsNewer(current: Option<Location>, next: Location) {
    if current.None? then true
    else if next.captured.None? || current.value.captured.None? then false
    else if next.captured != current.value.captured then next.captured.value > current.value.captured.value
    else next.received.Some? && current.value.received.Some? && next.received.value > current.value.received.value
  }

  function Latest(current: Option<Location>, locations: seq<Location>): Option<Location>
    decreases |locations|
  {
    if locations == [] then current
    else Latest(if IsNewer(current, locations[0]) then Some(locations[0]) else current, locations[1..])
  }

  /** By its readable times, y is newer than x. */
  predicate Beats(y: Location, x: Location) {
    && y.captured.Some?
    && (x.captured.None? || y.captured.value > x.captured.value
        || (y.captured == x.captured && y.received.Some? && x.received.Some? && y.received.value > x.received.value))
  }

  /** The same, and of equal capture times a readable time of receipt is newer than none. */
  predicate Outranks(y: Location, x: Location) {
    Beats(y, x) || (y.captured.Some? && y.captured == x.captured && y.received.Some? && x.received.None?)
  }

  predicate Readable(locations: seq<Location>) {
    exists i :: 0 <= i < |locations| && locations[i].captured.Some?
  }

  /** The first of the locations with the greatest readable capture time. */
  predicate FirstGreatest(all: seq<Location>, i: nat)
    requires i < |all|
  {
    && all[i].captured.Some?
    && (forall k | 0 <= k < i && all[k].captured.Some? :: all[k].captured.value < all[i].captured.value)
    && (forall k | i < k < |all| && all[k].captured.Some? :: all[k].captured.value <= all[i].captured.value)
  }

  /** If the first with the greatest capture time has no readable time of receipt, none with that capture time has. */
  predicate TiesReadable(all: seq<Location>) {
    forall i, k | 0 <= i < k < |all| && FirstGreatest(all, i) && all[k].captured == all[i].captured && all[i].received.None? ::
      all[k].received.None?
  }

  /** A location with the times of the one shown does not take its place. */
  lemma SameTimesStay(x: Location, y: Location)
    requires y.captured == x.captured && y.received == x.received
    ensures Latest(Some(x), [y]) == Some(x)
  {
    assert [y][1..] == [];
  }

  lemma Rest(x: Location, locations: seq<Location>)
    requires locations != []
    ensures [x] + locations == [x, locations[0]] + locations[1..]
    ensures Latest(Some(x), locations)
            == Latest(Some(if IsNewer(Some(x), locations[0]) then locations[0] else x), locations[1..])
  {
  }

  /** What is shown was received, and is never left for an older one. */
  lemma {:induction false} LatestKeeps(x: Location, locations: seq<Location>)
    ensures Latest(Some(x), locations).Some? && Latest(Some(x), locations).value in [x] + locations
    ensures var shown := Latest(Some(x), locations).value;
            x.captured.Some? ==>
              && shown.captured.Some? && shown.captured.value >= x.captured.value
              && (shown.captured == x.captured && x.received.None? ==> shown == x)
              && (shown.captured == x.captured && x.received.Some? ==>
                    shown.received.Some? && shown.received.value >= x.received.value)
    decreases |locations|
  {
    if locations != [] {
      Rest(x, locations);
      LatestKeeps(if IsNewer(Some(x), locations[0]) then locations[0] else x, locations[1..]);
    }
  }

  lemma {:induction false} Unbeaten(x: Location, locations: seq<Location>)
    requires x.captured.Some?
    ensures Latest(Some(x), locations).Some? && !Beats(x, Latest(Some(x), locations).value)
    ensures forall i | 0 <= i < |locations| :: !Beats(locations[i], Latest(Some(x), locations).value)
    decreases |locations|
  {
    LatestKeeps(x, locations);
    if locations != [] {
      var y, rest := locations[0], locations[1..];
      Rest(x, locations);
      var next := if IsNewer(Some(x), y) then y else x;
      LatestKeeps(next, rest);
      Unbeaten(next, rest);
      assert forall i | 0 < i < |locations| :: locations[i] == rest[i - 1];
    }
  }

  /** A location without a readable capture time is never replaced. */
  lemma {:induction false} UnreadableSticks(x: Location, locations: seq<Location>)
    requires x.captured.None?
    ensures Latest(Some(x), locations) == Some(x)
    decreases |locations|
  {
    if locations != [] { UnreadableSticks(x, locations[1..]); }
  }

  /**
   * Of a first location and any that follow, none is newer than the one shown exactly when the first
   * has a readable capture time, or none that follows has.
   */
  lemma LatestIsUnbeatenIff(x: Location, locations: seq<Location>)
    ensures Latest(None, [x] + locations) == Latest(Some(x), locations)
    ensures Latest(Some(x), locations).Some? && Latest(Some(x), locations).value in [x] + locations
    ensures (forall y | y in [x] + locations :: !Beats(y, Latest(Some(x), locations).value))
            <==> x.captured.Some? || !Readable(locations)
  {
    assert ([x] + locations)[1..] == locations;
    LatestKeeps(x, locations);
    var shown := Latest(Some(x), locations).value;
    if x.captured.Some? {
      Unbeaten(x, locations);
    } else {
      UnreadableSticks(x, locations);
      if Readable(locations) {
        var i :| 0 <= i < |locations| && locations[i].captured.Some?;
        assert locations[i] in [x] + locations && Beats(locations[i], shown);
      }
    }
  }

  /** Among equal capture times the first decides whether a time of receipt is shown. */
  lemma {:induction false} FirstDecides(x: Location, locations: seq<Location>, i: nat)
    requires i <= |locations| && x.captured.Some? && FirstGreatest([x] + locations, i)
    ensures var shown, g := Latest(Some(x), locations), ([x] + locations)[i];
            && shown.Some? && shown.value.captured == g.captured
            && if g.received.None? then shown.value == g else shown.value.received.Some?
    decreases |locations|
  {
    LatestKeeps(x, locations);
    Unbeaten(x, locations);
    var all := [x] + locations;
    if i == 0 {
      assert forall k | 0 <= k < |locations| :: all[k + 1] == locations[k];
    } else {
      Rest(x, locations);
      var next := if IsNewer(Some(x), locations[0]) then locations[0] else x;
      FirstStays(x, locations[0], locations[1..], i);
      FirstDecides(next, locations[1..], i - 1);
    }
  }

  /** The first with the greatest capture time is still so after the first two have met. */
  lemma FirstStays(x: Location, y: Location, rest: seq<Location>, i: nat)
    requires x.captured.Some? && 0 < i < |[x, y] + rest| && FirstGreatest([x, y] + rest, i)
    ensures var next := if IsNewer(Some(x), y) then y else x;
            && next.captured.Some? && ([next] + rest)[i - 1] == ([x, y] + rest)[i] && FirstGreatest([next] + rest, i - 1)
  {
    var all, next := [x, y] + rest, if IsNewer(Some(x), y) then y else x;
    var all' := [next] + rest;
    assert all[0] == x && all[1] == y;
    forall k | 0 < k < |all'| ensures all'[k] == all[k + 1] {}
    if i == 1 { assert x.captured.value < y.captured.value; }
    assert all'[i - 1] == all[i];
    var g := all[i];
    forall k | 0 <= k < i - 1 && all'[k].captured.Some? ensures all'[k].captured.value < g.captured.value {
      if k > 0 { assert all'[k] == all[k + 1]; }
    }
    forall k | i - 1 < k < |all'| && all'[k].captured.Some? ensures all'[k].captured.value <= g.captured.value {
      assert all'[k] == all[k + 1];
    }
  }

  /**
   * The stricter reading: nothing received outranks the location shown exactly when, besides, the first
   * with the greatest capture time has a readable time of receipt or none with that capture time has.
   */
  lemma LatestIsNewestIff(x: Location, locations: seq<Location>)
    ensures Latest(Some(x), locations).Some?
    ensures (forall y | y in [x] + locations :: !Outranks(y, Latest(Some(x), locations).value))
            <==> (x.captured.Some? || !Readable(locations)) && TiesReadable([x] + locations)
  {
    var all := [x] + locations;
    LatestIsUnbeatenIff(x, locations);
    var shown := Latest(Some(x), locations).value;
    if x.captured.Some? {
      var i := Greatest(all);
      FirstDecides(x, locations, i);
      OneGreatest(all, i);
      if TiesReadable(all) {
        forall y | y in all ensures !Outranks(y, shown) {
          var k :| 0 <= k < |all| && all[k] == y;
          assert !Beats(y, shown);
        }
      } else {
        var k :| i < k < |all| && all[k].captured == all[i].captured && all[i].received.None? && all[k].received.Some?;
        assert all[k] in all && Outranks(all[k], shown);
      }
    } else {
      UnreadableSticks(x, locations);
      if !Readable(locations) {
        assert forall k | 0 < k < |all| :: all[k] == locations[k - 1];
        assert forall k | 0 <= k < |all| :: all[k].captured.None?;
      } else {
        var y :| y in all && Beats(y, shown);
        assert Outranks(y, shown);
      }
    }
  }

  lemma {:induction false} Greatest(all: seq<Location>) returns (i: nat)
    requires Readable(all)
    ensures i < |all| && FirstGreatest(all, i)
    decreases |all|
  {
    var init, n := all[..|all| - 1], |all| - 1;
    assert forall k | 0 <= k < n :: init[k] == all[k];
    if Readable(init) {
      i := Greatest(init);
      if all[n].captured.Some? && all[n].captured.value > all[i].captured.value { i := n; }
    } else {
      i := n;
      assert forall k | 0 <= k < n :: init[k].captured.None?;
    }
  }

  lemma OneGreatest(all: seq<Location>, i: nat)
    requires i < |all| && FirstGreatest(all, i)
    ensures forall k | 0 <= k < |all| && FirstGreatest(all, k) :: k == i
  {
  }
}
