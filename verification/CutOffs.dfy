/**
 * Answers that name the offers of a search, and what the gateway does once an offer has ended: its Driver
 * receives the event that says so and nothing of the Trip after it.
 */
module CutOffs {
  import opened Basics
  import opened Tables
  import opened Events
  import opened Commitments
  import opened CommitmentSteps
  import opened Journals
  import opened Settlement
  import opened Steps
  import R = Ranking
  import opened Queries
  import opened Commands
  import opened CommandProofs
  import opened MatchingSafety
  import opened Retries
  import opened Runs
  import opened Repositories
  import opened Guards
  import opened Searches
  import opened Outcomes
  import opened Relay

  // ---- The event that ends an offer

  predicate EndsOffer(db: Db, cmd: Command)
    requires cmd.RejectTrip? || cmd.SweepTrip?
  {
    && cmd.offer in db.core.offers && db.core.offers[cmd.offer].job.Trip? && db.core.offers[cmd.offer].status.Pending?
    && if cmd.RejectTrip? then db.core.offers[cmd.offer].driver == cmd.driver && cmd.now < db.core.offers[cmd.offer].expiresAt
       else db.core.offers[cmd.offer].expiresAt <= cmd.now && !cmd.locked
  }

  /** The first event that a search leaves behind is the one told before it. */
  lemma FirstTold(
      db: Db, db1: Db, db': Db, j: Job, excluded: Option<Id>, now: Time, found: seq<R.Candidate>, kind: EventKind,
      act: Act, actor: Option<Id>)
    requires Known(db1, j) && SearchEnds(db, db1, db', j, excluded, now, found, kind, act, actor)
    ensures j in db'.journal.outbox && db1.journal.outbox[j] <= db'.journal.outbox[j]
  {
    hide Best, NoneMayBeAsked, MaxAttempt, AskedFor, GivenUp;
    if x :| Best(db.core, j, excluded, found, x) && AsksFor(db, db1, db', j, x.driver, now, kind) {
      AskedTells(db1, j, x.driver, now, MaxAttempt(db.core, j) + 1, kind);
    } else {
      GivenUpTells(db1, j, act, actor);
    }
  }

  lemma AskedTells(db: Db, j: Job, d: Id, now: Time, attempt: nat, kind: EventKind)
    requires Known(db, j) && d in db.core.work
    ensures var outbox := AskedFor(db, j, d, now, attempt, kind).journal.outbox; j in outbox && db.journal.outbox[j] <= outbox[j]
  {
  }

  lemma GivenUpTells(db: Db, j: Job, act: Act, actor: Option<Id>)
    requires Known(db, j)
    ensures var outbox := GivenUp(db, j, act, actor).journal.outbox; j in outbox && db.journal.outbox[j] <= outbox[j]
  {
  }

  /** The outbox tells of a rejected or swept offer, at the Trip's next version, naming its Driver. */
  lemma EndIsTold(db: Db, cmd: Command)
    requires Inv(db) && (cmd.RejectTrip? || cmd.SweepTrip?) && Unused(db, cmd) && Answer(db, cmd).Ok? && EndsOffer(db, cmd)
    ensures Known(db, db.core.offers[cmd.offer].job)
    ensures var f := db.core.offers[cmd.offer];
            var before, outbox := db.journal.outbox[f.job], Step(db, cmd).journal.outbox;
            && f.job in outbox && before < outbox[f.job]
            && outbox[f.job][|before|] ==
                 Event(if cmd.RejectTrip? then OfferRejected else OfferExpired, db.core.jobs[f.job].version + 1, None, {f.driver})
  {
    hide Inv, SearchEnds, Step, Answer;
    var f := db.core.offers[cmd.offer];
    if cmd.RejectTrip? {
      RejectOutcome(db, cmd);
      FirstTold(db, AfterRejection(db, cmd.offer), Step(db, cmd), f.job, Some(f.driver), cmd.now, cmd.found, OfferReassigned,
                ExhaustAfterReject, Some(f.driver));
    } else {
      SweepOutcome(db, cmd);
      FirstTold(db, AfterExpiry(db, cmd.offer), Step(db, cmd), f.job, Some(f.driver), cmd.now, cmd.found, OfferReassigned,
                ExpireNoReassignment, None);
    }
  }

  /**
   * A client of the Driver whose offer was rejected or swept, which follows rows that tell of it, receives
   * nothing of the Trip after that event, and is not subscribed to it.
   */
  lemma EndedDriverIsCutOff(db: Db, cmd: Command, c: Client, rows: seq<Row>, k: nat)
    requires Inv(db) && (cmd.RejectTrip? || cmd.SweepTrip?) && Unused(db, cmd) && Answer(db, cmd).Ok? && EndsOffer(db, cmd)
    requires k < |rows| && rows[k].job == db.core.offers[cmd.offer].job && c.actor == Some(db.core.offers[cmd.offer].driver)
    requires rows[k].job in db.journal.outbox && rows[k].job in Step(db, cmd).journal.outbox
    requires rows[k].at == |db.journal.outbox[rows[k].job]| < |Step(db, cmd).journal.outbox[rows[k].job]|
    requires rows[k].event == Step(db, cmd).journal.outbox[rows[k].job][rows[k].at]
    ensures rows[k].job !in FollowAll(c, rows).jobs
    ensures Of(FollowAll(c, rows).inbox, rows[k].job) == Of(FollowAll(c, rows[..k + 1]).inbox, rows[k].job)
  {
    hide Inv, Step, Answer, FollowAll;
    EndIsTold(db, cmd);
    NamedIsCutOff(c, rows, k);
  }

  // ---- What a search answers

  /** The aggregate's pending offer exactly while it is matching, as an answer shows it. */
  predicate Shows(c: Core, j: Job, o: Option<Id>, view: Option<OfferView>) {
    && j in c.jobs && (o.Some? <==> c.jobs[j].state.Matching?)
    && (o.Some? ==>
          && o.value in c.offers && c.offers[o.value].job == j && c.offers[o.value].status.Pending?
          && view == Some(Viewed(c.offers[o.value], o.value, Pending, c.jobs[j].state, c.jobs[j].version)))
    && (o.None? ==> view.None?)
  }

  /** A search ends in a pending offer that it names, or in a Trip that is not matching any more. */
  lemma SearchShows(
      db1: Db, ix: Index, j: Job, excluded: Option<Id>, now: Time, found: seq<R.Candidate>, kind: EventKind, act: Act,
      actor: Option<Id>)
    requires Searching(db1, ix, j) && j.Trip? && Search(db1, j, excluded, now, found, kind, act, actor).Some?
    ensures var (db', o) := Search(db1, j, excluded, now, found, kind, act, actor).value;
            && j in db'.core.jobs && (o.Some? <==> db'.core.jobs[j].state.Matching?)
            && (o.Some? ==> o.value in db'.core.offers && db'.core.offers[o.value].job == j && db'.core.offers[o.value].status.Pending?)
            && forall p | p in db1.core.offers :: p in db'.core.offers && db'.core.offers[p] == db1.core.offers[p]
  {
    hide Sound, HasPending, NextDriver, MaxAttempt, Exhaust, OfferNext;
    SoundFresh(db1, ix);
    var next := NextDriver(db1, j, excluded, found, kind);
    if next.Nobody? {
      ExhaustShows(db1, j, act, actor);
    } else {
      OfferShows(db1, j, next.driver, now, MaxAttempt(db1.core, j) + 1, kind);
    }
  }

  lemma ExhaustShows(db: Db, j: Job, act: Act, actor: Option<Id>)
    requires Known(db, j)
    ensures var c := Exhaust(db, j, act, actor).core;
            j in c.jobs && c.jobs[j].state.NoDriverAvailable? && c.offers == db.core.offers
  {
  }

  lemma OfferShows(db: Db, j: Job, d: Id, now: Time, attempt: nat, kind: EventKind)
    requires Known(db, j) && d in db.core.work && db.core.nextId + 1 !in db.core.offers
    ensures var c, o := OfferNext(db, j, d, now, attempt, kind).core, db.core.nextId + 1;
            && c.jobs == db.core.jobs && o in c.offers && c.offers[o].job == j && c.offers[o].status.Pending?
            && forall p | p in db.core.offers :: p in c.offers && c.offers[p] == db.core.offers[p]
  {
  }

  /** A started match is answered with its state and version, and with the pending offer if it is matching. */
  lemma StartTripAnswer(db: Db, cmd: Command) returns (o: Option<Id>, view: Option<OfferView>)
    requires Inv(db) && cmd.StartTrip? && Unused(db, cmd) && Answer(db, cmd).Ok?
    ensures Shows(Step(db, cmd).core, Trip(cmd.id), o, view)
    ensures var row := Step(db, cmd).core.jobs[Trip(cmd.id)];
            Answer(db, cmd) == Ok(MatchResponse(Trip(cmd.id), row.state, row.version, view))
  {
    hide Inv, Sound, Asked, Joined, Execute, Step, Answer;
    var ix := Executed(db, cmd);
    o, view := StartShown(db, ix, cmd);
  }

  lemma StartShown(db: Db, ix: Index, cmd: Command) returns (o: Option<Id>, view: Option<OfferView>)
    requires Sound(db, ix) && Joined(db) && cmd.StartTrip? && Execute(db, cmd).1.Ok?
    ensures var (db', answer) := Execute(db, cmd);
            && Shows(db'.core, Trip(cmd.id), o, view)
            && var row := db'.core.jobs[Trip(cmd.id)]; answer == Ok(MatchResponse(Trip(cmd.id), row.state, row.version, view))
  {
    hide Sound, Joined, Search, PendingOffer, BeginMatching, Searching;
    var j := Trip(cmd.id);
    JobKnown(db, j);
    var db1 := db;
    if db.core.jobs[j].state.Requested? {
      StartSearching(db, ix, j);
      db1 := BeginMatching(db, j, None);
    }
    SearchedFrom(db, ix, cmd, db1);
    if PendingOffer(db1.core, j).Some? {
      PendingFound(db1.core, j);
      o := PendingOffer(db1.core, j);
    } else {
      SearchShows(db1, ix, j, None, cmd.now, cmd.found, OfferCreated, ExhaustMatching, None);
      o := Search(db1, j, None, cmd.now, cmd.found, OfferCreated, ExhaustMatching, None).value.1;
    }
    view := Execute(db, cmd).1.response.offer;
  }

  lemma SearchedFrom(db: Db, ix: Index, cmd: Command, db1: Db)
    requires Sound(db, ix) && cmd.StartTrip? && Known(db, Trip(cmd.id))
    requires db.core.jobs[Trip(cmd.id)].state.Requested? || db.core.jobs[Trip(cmd.id)].state.Matching?
    requires db1 == if db.core.jobs[Trip(cmd.id)].state.Requested? then BeginMatching(db, Trip(cmd.id), None) else db
    ensures Known(db1, Trip(cmd.id)) && db1.core.jobs[Trip(cmd.id)].state.Matching?
    ensures PendingOffer(db1.core, Trip(cmd.id)).None? ==> Searching(db1, ix, Trip(cmd.id))
  {
    hide Sound, Searching, PendingOffer, HasPending;
    var j := Trip(cmd.id);
    if db.core.jobs[j].state.Requested? {
      StartSearching(db, ix, j);
      SearchingKnown(db1, ix, j);
    } else {
      AwaitingIff(db.core, j);
      if PendingOffer(db.core, j).None? { NotAwaitedSearching(db, ix, j); }
    }
  }

  lemma SearchingKnown(db: Db, ix: Index, j: Job)
    requires Searching(db, ix, j)
    ensures Known(db, j) && db.core.jobs[j].state.Matching?
  {
  }

  /** A rejection is answered with the rejected offer and the one that takes its place, if the Trip is still matching. */
  lemma RejectAnswer(db: Db, cmd: Command) returns (o: Option<Id>, view: Option<OfferView>)
    requires Inv(db) && cmd.RejectTrip? && Unused(db, cmd) && Answer(db, cmd).Ok?
    ensures cmd.offer in db.core.offers && Shows(Step(db, cmd).core, db.core.offers[cmd.offer].job, o, view)
    ensures var f := db.core.offers[cmd.offer];
            var row := Step(db, cmd).core.jobs[f.job];
            Answer(db, cmd) == Ok(RejectionResponse(Viewed(f, cmd.offer, Rejected, row.state, row.version), view))
  {
    hide Inv, Sound, Asked, Joined, Execute, Step, Answer;
    var ix := Executed(db, cmd);
    o, view := RejectShown(db, ix, cmd);
  }

  lemma RejectShown(db: Db, ix: Index, cmd: Command) returns (o: Option<Id>, view: Option<OfferView>)
    requires Sound(db, ix) && Joined(db) && cmd.RejectTrip? && Execute(db, cmd).1.Ok?
    ensures var (db', answer) := Execute(db, cmd);
            && cmd.offer in db.core.offers && Shows(db'.core, db.core.offers[cmd.offer].job, o, view)
            && var f := db.core.offers[cmd.offer];
               var row := db'.core.jobs[f.job];
               answer == Ok(RejectionResponse(Viewed(f, cmd.offer, Rejected, row.state, row.version), view))
  {
    hide Sound, Joined, Search, Refuse, Expire, Searching;
    var f := db.core.offers[cmd.offer];
    RefuseKeeps(db, ix, cmd.offer);
    RejectedOffer(db, ix, cmd.offer);
    SearchShows(Refuse(db, cmd.offer), ix, f.job, Some(f.driver), cmd.now, cmd.found, OfferReassigned, ExhaustAfterReject,
                Some(f.driver));
    SearchingKnown(Refuse(db, cmd.offer), ix, f.job);
    o := Search(Refuse(db, cmd.offer), f.job, Some(f.driver), cmd.now, cmd.found, OfferReassigned, ExhaustAfterReject,
                Some(f.driver)).value.1;
    view := Execute(db, cmd).1.response.reassigned;
  }

  lemma RejectedOffer(db: Db, ix: Index, o: Id)
    requires Sound(db, ix) && o in db.core.offers && db.core.offers[o].status.Pending? && db.core.offers[o].job.Trip?
    ensures OfferRows(db.core, o) && Known(db, db.core.offers[o].job)
    ensures o in Refuse(db, o).core.offers && Refuse(db, o).core.offers[o] == db.core.offers[o].(status := Rejected)
  {
    hide Linked, Logged, Settled;
    PendingRows(db, ix, o);
  }
}
