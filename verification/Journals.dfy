/**
 * The transition log and the outbox of one aggregate: a gap-free chain of legal steps whose
 * fold is the stored row, and events that agree with it.
 */
module Journals {
  import opened Basics
  import opened Tables
  import opened Events
  import opened Commitments

  /** The acts of an assigned Driver. */
  predicate DriverAct(a: Act) {
    a.AssignDriver? || a.Arrive? || a.Start? || a.Complete?
  }

  /** What each command may do to an aggregate's state. */
  predicate Legal(j: Job, act: Act, from: State, to: State) {
    match act
    case Create => false
    case StartMatching => from.Requested? && to.Matching?
    case ExhaustMatching => from.Matching? && to.NoDriverAvailable?
    case ExhaustAfterReject => j.Trip? && from.Matching? && to.NoDriverAvailable?
    case ExpireNoReassignment => from.Matching? && to.NoDriverAvailable?
    case RejectOffer => j.Trip? && from.Matching? && to.Matching?
    case ExpireOffer => j.Trip? && from.Matching? && to.Matching?
    case AssignDriver => from.Matching? && to.DriverToPickup?
    case Arrive => from.DriverToPickup? && to.AtPickup?
    case Start => from.AtPickup? && to.InProgress?
    case Complete => from.InProgress? && to.Completed?
    case Cancel => j.Trip? && !Terminal(from) && !from.InProgress? && to.Cancelled?
  }

  /** Versions 0, 1, 2, ... without a gap; each row starts where the one before it ended. */
  ghost predicate Chain(j: Job, log: seq<Transition>) {
    && |log| > 0
    && log[0].act.Create? && log[0].from.None? && log[0].fromVersion.None?
    && log[0].to.Requested? && log[0].toVersion == 0
    && forall k | 0 < k < |log| ::
         && log[k].toVersion == k && log[k].fromVersion == Some(k - 1 as nat)
         && log[k].from == Some(log[k - 1].to)
         && Legal(j, log[k].act, log[k - 1].to, log[k].to)
  }

  /** The Driver's acts are all by one Driver, the one assigned. */
  ghost predicate ActedBy(log: seq<Transition>, worker: Option<Id>) {
    forall k | 0 <= k < |log| && DriverAct(log[k].act) :: worker.Some? && log[k].actor == worker
  }

  /** Events come in version order, tell the state the log has, and never repeat a type at a version. */
  ghost predicate Told(log: seq<Transition>, outbox: seq<Event>) {
    && |outbox| > 0
    && (forall i | 0 <= i < |outbox| ::
          && outbox[i].version < |log|
          && (outbox[i].carried.Some? ==> outbox[i].carried.value == log[outbox[i].version].to))
    && (forall i, k | 0 <= i < k < |outbox| ::
          && outbox[i].version <= outbox[k].version
          && (outbox[i].version == outbox[k].version ==> outbox[i].kind != outbox[k].kind))
  }

  /** A terminal event is alone at the highest version, and there is one exactly in a terminal state. */
  ghost predicate Closed(state: State, version: nat, outbox: seq<Event>) {
    && |outbox| > 0
    && (TerminalKind(Last(outbox).kind) <==> Terminal(state))
    && (Terminal(state) ==> Last(outbox).version == version)
    && (forall i | 0 <= i < |outbox| - 1 ::
          && !TerminalKind(outbox[i].kind)
          && (Terminal(state) ==> outbox[i].version < version))
  }

  ghost predicate Journaled(
      j: Job, state: State, version: nat, worker: Option<Id>, log: seq<Transition>, outbox: seq<Event>) {
    && Chain(j, log) && |log| == version + 1 && Last(log).to == state
    && ActedBy(log, worker)
    && Told(log, outbox) && Closed(state, version, outbox)
  }

  /** A step of the aggregate, with its one transition row and its one event. */
  lemma StepKeeps(
      j: Job, state: State, version: nat, worker: Option<Id>, log: seq<Transition>, outbox: seq<Event>,
      act: Act, actor: Option<Id>, to: State, worker': Option<Id>, kind: EventKind, carried: Option<State>,
      drivers: set<Id>)
    requires Journaled(j, state, version, worker, log, outbox) && !Terminal(state)
    requires Legal(j, act, state, to)
    requires DriverAct(act) ==> worker'.Some? && actor == worker'
    requires worker.Some? ==> worker' == worker
    requires carried.Some? ==> carried.value == to
    requires TerminalKind(kind) <==> Terminal(to)
    ensures Journaled(j, to, version + 1, worker',
                      log + [Transition(act, actor, Some(state), to, Some(version), version + 1)],
                      outbox + [Event(kind, version + 1, carried, drivers)])
  {
  }

  /** An event that tells of an offer at the aggregate's present version. */
  lemma TellKeeps(
      j: Job, state: State, version: nat, worker: Option<Id>, log: seq<Transition>, outbox: seq<Event>, e: Event)
    requires Journaled(j, state, version, worker, log, outbox) && !Terminal(state)
    requires e.version == version && e.carried.None? && !TerminalKind(e.kind)
    requires forall i | 0 <= i < |outbox| && outbox[i].version == version :: outbox[i].kind != e.kind
    ensures Journaled(j, state, version, worker, log, outbox + [e])
  {
  }

  lemma OpenKeeps(j: Job, customer: Id)
    ensures Journaled(j, Requested, 0, None,
                      [Transition(Create, Some(customer), None, Requested, None, 0)],
                      [Event(CreatedEvent, 0, Some(Requested), {})])
  {
  }

  /** The one Driver who ever works on an aggregate. */
  function Worker(c: Core, ix: Index, j: Job): Option<Id> {
    if j in ix.staff && ix.staff[j] in c.assignments then Some(c.assignments[ix.staff[j]].driver) else None
  }

  ghost predicate JournalOk(c: Core, ix: Index, n: Journal, j: Job)
    requires j in c.jobs && j in n.log && j in n.outbox
  {
    Journaled(j, c.jobs[j].state, c.jobs[j].version, Worker(c, ix, j), n.log[j], n.outbox[j])
  }

  ghost predicate Logged(c: Core, ix: Index, n: Journal) {
    && n.log.Keys == c.jobs.Keys && n.outbox.Keys == c.jobs.Keys
    && forall j {:trigger JournalOk(c, ix, n, j)} | j in c.jobs :: JournalOk(c, ix, n, j)
  }

  /** Only the journal and the row of aggregate j have changed. */
  lemma LoggedFrom(c: Core, ix: Index, n: Journal, c': Core, ix': Index, n': Journal, j: Job)
    requires Logged(c, ix, n)
    requires LocalJobs(c.jobs, c'.jobs, j) && j in c'.jobs
    requires forall i | i in c.jobs && i != j :: Worker(c', ix', i) == Worker(c, ix, i)
    requires j in n'.log && n'.log == n.log[j := n'.log[j]]
    requires j in n'.outbox && n'.outbox == n.outbox[j := n'.outbox[j]]
    requires JournalOk(c', ix', n', j)
    ensures Logged(c', ix', n')
  {
    hide Journaled, Worker;
    forall i | i in c'.jobs ensures JournalOk(c', ix', n', i) {
      if i != j { assert JournalOk(c, ix, n, i); }
    }
  }
}
