/**
 * Refresh-token families (apps/api/src/identity/identity.repository.ts): each family's sessions form
 * one chain of rotations, of which at most the last is active.
 */
module Sessions {
  import opened Basics
  import opened Tables

  datatype Status = ActiveSession | Rotated | RevokedSession | ExpiredSession

  /** A row of identity.refresh_sessions; a digest stands for its token. */
  datatype Session = Session(user: Id, family: Id, digest: Id, status: Status, expiresAt: Time, replacedBy: Option<Id>)

  /** The rows, and the next id that randomUUID may give to a session or a family. */
  datatype Store = Store(nextId: Id, rows: map<Id, Session>)

  predicate Known(s: Store, digest: Id) {
    exists k | k in s.rows :: s.rows[k].digest == digest
  }

  // ---- What each request does

  /** createSession for a new family; a digest is unique, so a repeated one fails the INSERT. */
  function LoggedIn(s: Store, user: Id, digest: Id, expiresAt: Time): Store {
    if Known(s, digest) then s
    else Store(s.nextId + 2, s.rows[s.nextId + 1 := Session(user, s.nextId, digest, ActiveSession, expiresAt, None)])
  }

  /** UPDATE ... SET status = 'REVOKED' WHERE family_id AND status = 'ACTIVE' */
  function FamilyRevoked(rows: map<Id, Session>, family: Id): map<Id, Session> {
    map k | k in rows ::
      if rows[k].family == family && rows[k].status.ActiveSession? then rows[k].(status := RevokedSession) else rows[k]
  }

  /** rotateSession of the session k that holds the presented token; the new session's id, if there is one. */
  function Refreshed(s: Store, k: Id, digest: Id, expiresAt: Time, now: Time): (Store, Option<Id>)
    requires k in s.rows
  {
    var session := s.rows[k];
    match session.status
    case Rotated => (s.(rows := FamilyRevoked(s.rows, session.family)), None)
    case RevokedSession => (s, None)
    case ExpiredSession => (s, None)
    case ActiveSession =>
      if session.expiresAt <= now then (s.(rows := s.rows[k := session.(status := ExpiredSession)]), None)
      else if Known(s, digest) then (s, None)
      else
        (Store(s.nextId + 1,
               s.rows[k := session.(status := Rotated, replacedBy := Some(s.nextId))]
                     [s.nextId := Session(session.user, session.family, digest, ActiveSession, expiresAt, None)]),
         Some(s.nextId))
  }

  /** revokeSession of the session k that holds the token. */
  function LoggedOut(s: Store, k: Id): Store
    requires k in s.rows
  {
    if s.rows[k].status.ActiveSession? then s.(rows := s.rows[k := s.rows[k].(status := RevokedSession)]) else s
  }

  // ---- The chains

  /** The family's sessions in the order of rotation. */
  predicate ChainOk(s: Store, chain: seq<Id>, family: Id) {
    && chain != []
    && (forall i | 0 <= i < |chain| :: chain[i] in s.rows && s.rows[chain[i]].family == family)
    && (forall i | 0 <= i < |chain| - 1 ::
          s.rows[chain[i]].status.Rotated? && s.rows[chain[i]].replacedBy == Some(chain[i + 1]))
    && !s.rows[Last(chain)].status.Rotated? && s.rows[Last(chain)].replacedBy.None?
    && (forall i, k | 0 <= i < k < |chain| :: chain[i] != chain[k])
  }

  ghost predicate Chained(s: Store, chains: map<Id, seq<Id>>) {
    && (forall k | k in s.rows :: k < s.nextId && s.rows[k].family in chains && k in chains[s.rows[k].family])
    && (forall f {:trigger chains[f]} | f in chains :: f < s.nextId && ChainOk(s, chains[f], f))
    && (forall k, l | k in s.rows && l in s.rows && s.rows[k].digest == s.rows[l].digest :: k == l)
  }

  ghost predicate Valid(s: Store) {
    exists chains :: Chained(s, chains)
  }

  // ---- The repository

  class SessionRepository {
    var store: Store

    constructor ()
      ensures store == Store(0, map[]) && Valid(store)
    {
      store := Store(0, map[]);
      assert Chained(Store(0, map[]), map[]);
    }

    /** createSession */
    method CreateSession(user: Id, digest: Id, expiresAt: Time)
      requires Valid(store)
      modifies this
      ensures Valid(store) && store == LoggedIn(old(store), user, digest, expiresAt)
    {
      hide Valid;
      LoginKeeps(store, user, digest, expiresAt);
      if exists k | k in store.rows :: store.rows[k].digest == digest { return; }
      var family := store.nextId;
      var id := family + 1;
      store := Store(id + 1, store.rows[id := Session(user, family, digest, ActiveSession, expiresAt, None)]);
    }

    /** rotateSession */
    method RotateSession(presented: Id, digest: Id, expiresAt: Time, now: Time) returns (session: Option<Id>)
      requires Valid(store)
      modifies this
      ensures Valid(store)
      ensures !Known(old(store), presented) ==> store == old(store) && session.None?
      ensures forall k | k in old(store).rows && old(store).rows[k].digest == presented ::
                (store, session) == Refreshed(old(store), k, digest, expiresAt, now)
      ensures session.Some? <==>
                exists k :: k in old(store).rows && old(store).rows[k].digest == presented
                            && old(store).rows[k].status.ActiveSession? && now < old(store).rows[k].expiresAt
                            && forall l | l in old(store).rows :: old(store).rows[l].digest != digest
    {
      hide Valid;
      if !(exists k | k in store.rows :: store.rows[k].digest == presented) { return None; }
      var k: Id :| k in store.rows && store.rows[k].digest == presented;
      OneHolder(store, k);
      RefreshKeeps(store, k, digest, expiresAt, now);
      var current := store.rows[k];
      if current.status.Rotated? {
        store := store.(rows := FamilyRevoked(store.rows, current.family));
        return None;
      }
      if !current.status.ActiveSession? { return None; }
      if current.expiresAt <= now {
        store := store.(rows := store.rows[k := current.(status := ExpiredSession)]);
        return None;
      }
      var rows, id := store.rows, store.nextId;
      rows := rows[k := current.(status := Rotated, replacedBy := Some(id))];
      if exists l | l in store.rows :: store.rows[l].digest == digest { return None; }
      rows := rows[id := Session(current.user, current.family, digest, ActiveSession, expiresAt, None)];
      store := Store(id + 1, rows);
      return Some(id);
    }

    /** revokeSession */
    method RevokeSession(digest: Id)
      requires Valid(store)
      modifies this
      ensures Valid(store)
      ensures !Known(old(store), digest) ==> store == old(store)
      ensures forall k | k in old(store).rows && old(store).rows[k].digest == digest :: store == LoggedOut(old(store), k)
    {
      if !(exists k | k in store.rows :: store.rows[k].digest == digest) { return; }
      var k: Id :| k in store.rows && store.rows[k].digest == digest;
      OneHolder(store, k);
      LogoutKeeps(store, k);
      if store.rows[k].status.ActiveSession? {
        store := store.(rows := store.rows[k := store.rows[k].(status := RevokedSession)]);
      }
    }
  }

  lemma OneHolder(s: Store, k: Id)
    requires Valid(s) && k in s.rows
    ensures forall l | l in s.rows && s.rows[l].digest == s.rows[k].digest :: l == k
  {
    var chains :| Chained(s, chains);
  }

  // ---- Every request keeps the chains

  lemma ChainsOf(s: Store) returns (chains: map<Id, seq<Id>>)
    requires Valid(s)
    ensures Chained(s, chains)
  {
    chains :| Chained(s, chains);
  }

  /** A chain whose sessions differ at most in how the last one ended is still a chain. */
  lemma ChainSame(s: Store, s': Store, chain: seq<Id>, family: Id)
    requires ChainOk(s, chain, family)
    requires forall i | 0 <= i < |chain| :: chain[i] in s'.rows && s'.rows[chain[i]] ==
               s.rows[chain[i]].(status := s'.rows[chain[i]].status)
    requires forall i | 0 <= i < |chain| :: s'.rows[chain[i]].status.Rotated? <==> s.rows[chain[i]].status.Rotated?
    ensures ChainOk(s', chain, family)
  {
  }

  lemma ChainGrows(s: Store, s': Store, chain: seq<Id>, family: Id, id: Id)
    requires ChainOk(s, chain, family) && id !in chain
    requires forall i | 0 <= i < |chain| - 1 :: chain[i] in s'.rows && s'.rows[chain[i]] == s.rows[chain[i]]
    requires Last(chain) in s'.rows && s'.rows[Last(chain)] == s.rows[Last(chain)].(status := Rotated, replacedBy := Some(id))
    requires id in s'.rows && s'.rows[id].family == family && s'.rows[id].status.ActiveSession? && s'.rows[id].replacedBy.None?
    ensures ChainOk(s', chain + [id], family)
  {
    assert chain[|chain| - 1] == Last(chain);
  }

  lemma LoginKeeps(s: Store, user: Id, digest: Id, expiresAt: Time)
    requires Valid(s)
    ensures Valid(LoggedIn(s, user, digest, expiresAt))
  {
    hide Valid, ChainOk;
    var chains := ChainsOf(s);
    if !Known(s, digest) {
      var s', chains' := LoggedIn(s, user, digest, expiresAt), chains[s.nextId := [s.nextId + 1]];
      assert ChainOk(s', [s.nextId + 1], s.nextId) by { NewChain(s', s.nextId + 1); }
      forall f | f in chains ensures ChainOk(s', chains[f], f) {
        Members(s, chains[f], f);
        ChainSame(s, s', chains[f], f);
      }
      ValidIs(s', chains');
    }
  }

  lemma NewChain(s: Store, id: Id)
    requires id in s.rows && !s.rows[id].status.Rotated? && s.rows[id].replacedBy.None?
    ensures ChainOk(s, [id], s.rows[id].family)
  {
  }

  lemma Members(s: Store, chain: seq<Id>, family: Id)
    requires ChainOk(s, chain, family)
    ensures chain != [] && forall i | 0 <= i < |chain| :: chain[i] in s.rows && s.rows[chain[i]].family == family
    ensures forall i | 0 <= i < |chain| - 1 :: s.rows[chain[i]].status.Rotated? && chain[i] != Last(chain)
  {
  }

  lemma ValidIs(s: Store, chains: map<Id, seq<Id>>)
    requires Chained(s, chains)
    ensures Valid(s)
  {
  }

  /** An active session is the last of its family. */
  lemma ActiveIsLast(s: Store, chains: map<Id, seq<Id>>, k: Id)
    requires Chained(s, chains) && k in s.rows && !s.rows[k].status.Rotated?
    ensures s.rows[k].family in chains && chains[s.rows[k].family] != [] && Last(chains[s.rows[k].family]) == k
  {
    var chain := chains[s.rows[k].family];
    assert ChainOk(s, chain, s.rows[k].family);
    var i :| 0 <= i < |chain| && chain[i] == k;
  }

  /** The last session of a family may end in any way. */
  lemma EndKeeps(s: Store, k: Id, status: Status)
    requires Valid(s) && k in s.rows && s.rows[k].status.ActiveSession? && !status.Rotated?
    ensures Valid(s.(rows := s.rows[k := s.rows[k].(status := status)]))
  {
    hide Valid, ChainOk;
    var chains := ChainsOf(s);
    var s' := s.(rows := s.rows[k := s.rows[k].(status := status)]);
    forall f | f in chains ensures ChainOk(s', chains[f], f) {
      Members(s, chains[f], f);
      ChainSame(s, s', chains[f], f);
    }
    ValidIs(s', chains);
  }

  lemma RevokeFamilyKeeps(s: Store, family: Id)
    requires Valid(s)
    ensures Valid(s.(rows := FamilyRevoked(s.rows, family)))
    ensures var rows := FamilyRevoked(s.rows, family);
            forall k | k in rows && rows[k].family == family :: !rows[k].status.ActiveSession?
  {
    hide Valid, ChainOk;
    var chains := ChainsOf(s);
    var s' := s.(rows := FamilyRevoked(s.rows, family));
    forall f | f in chains ensures ChainOk(s', chains[f], f) {
      Members(s, chains[f], f);
      ChainSame(s, s', chains[f], f);
    }
    ValidIs(s', chains);
  }

  lemma RotateKeeps(s: Store, k: Id, digest: Id, expiresAt: Time, now: Time)
    requires Valid(s) && k in s.rows && s.rows[k].status.ActiveSession? && now < s.rows[k].expiresAt && !Known(s, digest)
    ensures Valid(Refreshed(s, k, digest, expiresAt, now).0)
  {
    hide Valid, ChainOk;
    var chains := ChainsOf(s);
    var s', family := Refreshed(s, k, digest, expiresAt, now).0, s.rows[k].family;
    ActiveIsLast(s, chains, k);
    var chains' := chains[family := chains[family] + [s.nextId]];
    forall f | f in chains ensures ChainOk(s', chains'[f], f) {
      Members(s, chains[f], f);
      if f == family { ChainGrows(s, s', chains[f], f, s.nextId); } else { ChainSame(s, s', chains[f], f); }
    }
    RotatedRows(s, chains, k, digest, expiresAt, now);
    ValidIs(s', chains');
  }

  lemma RotatedRows(s: Store, chains: map<Id, seq<Id>>, k: Id, digest: Id, expiresAt: Time, now: Time)
    requires Chained(s, chains) && k in s.rows && s.rows[k].status.ActiveSession? && now < s.rows[k].expiresAt && !Known(s, digest)
    ensures var s' := Refreshed(s, k, digest, expiresAt, now).0;
            && (forall l | l in s'.rows :: l < s'.nextId && s'.rows[l].family in chains
                                           && (l in chains[s'.rows[l].family] || l == s.nextId))
            && (forall l, m | l in s'.rows && m in s'.rows && s'.rows[l].digest == s'.rows[m].digest :: l == m)
  {
    hide ChainOk;
    var s' := Refreshed(s, k, digest, expiresAt, now).0;
    forall l, m | l in s'.rows && m in s'.rows && s'.rows[l].digest == s'.rows[m].digest ensures l == m {
      if l != s.nextId && m != s.nextId { assert s.rows[l].digest == s.rows[m].digest; }
    }
  }

  lemma RefreshKeeps(s: Store, k: Id, digest: Id, expiresAt: Time, now: Time)
    requires Valid(s) && k in s.rows
    ensures Valid(Refreshed(s, k, digest, expiresAt, now).0)
  {
    hide Valid;
    match s.rows[k].status
    case Rotated => RevokeFamilyKeeps(s, s.rows[k].family);
    case ActiveSession =>
      if s.rows[k].expiresAt <= now { EndKeeps(s, k, ExpiredSession); }
      else if !Known(s, digest) { RotateKeeps(s, k, digest, expiresAt, now); }
    case _ =>
  }

  lemma LogoutKeeps(s: Store, k: Id)
    requires Valid(s) && k in s.rows
    ensures Valid(LoggedOut(s, k))
  {
    hide Valid;
    if s.rows[k].status.ActiveSession? { EndKeeps(s, k, RevokedSession); }
  }

  // ---- What the chains mean

  /** A family has at most one active session. */
  lemma OneActive(s: Store, k: Id, l: Id)
    requires Valid(s) && k in s.rows && l in s.rows && s.rows[k].family == s.rows[l].family
    requires s.rows[k].status.ActiveSession? && s.rows[l].status.ActiveSession?
    ensures k == l
  {
    hide Valid;
    var chains := ChainsOf(s);
    ActiveIsLast(s, chains, k);
    ActiveIsLast(s, chains, l);
  }

  /**
   * The sessions of a family are exactly the members of one sequence without repetition, along which
   * each is replaced by the next; so following replaced_by never comes back.
   */
  lemma FamilyIsChain(s: Store, k: Id) returns (chain: seq<Id>)
    requires Valid(s) && k in s.rows
    ensures k in chain && ChainOk(s, chain, s.rows[k].family)
    ensures forall l | l in s.rows :: l in chain <==> s.rows[l].family == s.rows[k].family
  {
    var chains :| Chained(s, chains);
    chain := chains[s.rows[k].family];
    assert ChainOk(s, chain, s.rows[k].family);
  }

  // ---- Whole runs

  datatype Request =
    | Login(user: Id, digest: Id, expiresAt: Time)
    | Refresh(presented: Id, digest: Id, expiresAt: Time, now: Time)
    | Logout(digest: Id)

  /** The session that holds a token. */
  ghost function Holder(s: Store, digest: Id): Id
    requires Known(s, digest)
    ensures Holder(s, digest) in s.rows && s.rows[Holder(s, digest)].digest == digest
  {
    var k :| k in s.rows && s.rows[k].digest == digest; k
  }

  ghost function Handled(s: Store, r: Request): Store {
    match r
    case Login(user, digest, expiresAt) => LoggedIn(s, user, digest, expiresAt)
    case Refresh(presented, digest, expiresAt, now) =>
      if Known(s, presented) then Refreshed(s, Holder(s, presented), digest, expiresAt, now).0 else s
    case Logout(digest) => if Known(s, digest) then LoggedOut(s, Holder(s, digest)) else s
  }

  ghost function HandledAll(s: Store, requests: seq<Request>): Store
    decreases |requests|
  {
    if requests == [] then s else HandledAll(Handled(s, requests[0]), requests[1..])
  }

  lemma HandledKeeps(s: Store, r: Request)
    requires Valid(s)
    ensures Valid(Handled(s, r))
  {
    hide Valid;
    match r
    case Login(user, digest, expiresAt) => LoginKeeps(s, user, digest, expiresAt);
    case Refresh(presented, digest, expiresAt, now) =>
      if Known(s, presented) { RefreshKeeps(s, Holder(s, presented), digest, expiresAt, now); }
    case Logout(digest) => if Known(s, digest) { LogoutKeeps(s, Holder(s, digest)); }
  }

  lemma {:induction false} HandledAllKeeps(s: Store, requests: seq<Request>)
    requires Valid(s)
    ensures Valid(HandledAll(s, requests))
    decreases |requests|
  {
    hide Valid, Handled;
    if requests != [] {
      HandledKeeps(s, requests[0]);
      HandledAllKeeps(Handled(s, requests[0]), requests[1..]);
    }
  }

  const EMPTY_STORE := Store(0, map[])

  lemma EmptyValid()
    ensures Valid(EMPTY_STORE)
  {
    assert Chained(EMPTY_STORE, map[]);
  }

  /** In every run from the empty table a family has at most one active session. */
  lemma AlwaysOneActive(requests: seq<Request>, k: Id, l: Id)
    requires var s := HandledAll(EMPTY_STORE, requests);
             && k in s.rows && l in s.rows && s.rows[k].family == s.rows[l].family
             && s.rows[k].status.ActiveSession? && s.rows[l].status.ActiveSession?
    ensures k == l
  {
    hide Valid, HandledAll;
    EmptyValid();
    HandledAllKeeps(EMPTY_STORE, requests);
    OneActive(HandledAll(EMPTY_STORE, requests), k, l);
  }

  /** And its sessions form one chain of replacements. */
  lemma AlwaysChains(requests: seq<Request>, k: Id) returns (chain: seq<Id>)
    requires k in HandledAll(EMPTY_STORE, requests).rows
    ensures var s := HandledAll(EMPTY_STORE, requests);
            && k in chain && ChainOk(s, chain, s.rows[k].family)
            && forall l | l in s.rows :: l in chain <==> s.rows[l].family == s.rows[k].family
  {
    hide Valid, HandledAll;
    EmptyValid();
    HandledAllKeeps(EMPTY_STORE, requests);
    chain := FamilyIsChain(HandledAll(EMPTY_STORE, requests), k);
  }

  /** The family exists, and no session of it is active. */
  predicate Dead(s: Store, family: Id) {
    family < s.nextId && forall k | k in s.rows && s.rows[k].family == family :: !s.rows[k].status.ActiveSession?
  }

  lemma DeadStep(s: Store, r: Request, family: Id)
    requires Dead(s, family)
    ensures Dead(Handled(s, r), family)
  {
    match r
    case Login(_, _, _) =>
    case Refresh(presented, digest, expiresAt, now) =>
      if Known(s, presented) {
        var k := Holder(s, presented);
        var s' := Handled(s, r);
        assert s.rows[k].family == family ==> !s.rows[k].status.ActiveSession?;
      }
    case Logout(_) =>
  }

  lemma {:induction false} DeadForever(s: Store, requests: seq<Request>, family: Id)
    requires Dead(s, family)
    ensures Dead(HandledAll(s, requests), family)
    decreases |requests|
  {
    if requests != [] {
      DeadStep(s, requests[0], family);
      hide Dead, Handled;
      DeadForever(Handled(s, requests[0]), requests[1..], family);
    }
  }

  /** A family whose last session was revoked or has expired is over already. */
  lemma EndedIsDead(s: Store, k: Id)
    requires Valid(s) && k in s.rows && (s.rows[k].status.RevokedSession? || s.rows[k].status.ExpiredSession?)
    ensures Dead(s, s.rows[k].family)
  {
    hide Valid;
    var chains := ChainsOf(s);
    ActiveIsLast(s, chains, k);
    forall l | l in s.rows && s.rows[l].family == s.rows[k].family ensures !s.rows[l].status.ActiveSession? {
      if s.rows[l].status.ActiveSession? { ActiveIsLast(s, chains, l); }
    }
  }

  /** After a token that is not active has been presented, its family never has an active session again. */
  lemma InactiveTokenEndsFamily(s: Store, k: Id, digest: Id, expiresAt: Time, now: Time, requests: seq<Request>)
    requires Valid(s) && k in s.rows && !s.rows[k].status.ActiveSession?
    ensures Dead(HandledAll(Refreshed(s, k, digest, expiresAt, now).0, requests), s.rows[k].family)
  {
    hide Valid, HandledAll;
    var chains := ChainsOf(s);
    if s.rows[k].status.Rotated? { RevokeFamilyKeeps(s, s.rows[k].family); } else { EndedIsDead(s, k); }
    DeadForever(Refreshed(s, k, digest, expiresAt, now).0, requests, s.rows[k].family);
  }

  /** A successful rotation leaves the new session the family's only active one, for the same user. */
  lemma RotationHandsOver(s: Store, k: Id, digest: Id, expiresAt: Time, now: Time)
    requires Valid(s) && k in s.rows && Refreshed(s, k, digest, expiresAt, now).1.Some?
    ensures var (s', id) := Refreshed(s, k, digest, expiresAt, now);
            && id.value in s'.rows && s'.rows[id.value].user == s.rows[k].user
            && s'.rows[k].status.Rotated? && s'.rows[k].replacedBy == id
            && forall l | l in s'.rows && s'.rows[l].family == s.rows[k].family :: s'.rows[l].status.ActiveSession? <==> l == id.value
  {
    hide Valid;
    RefreshKeeps(s, k, digest, expiresAt, now);
    var s', id := Refreshed(s, k, digest, expiresAt, now).0, Refreshed(s, k, digest, expiresAt, now).1.value;
    var chains := ChainsOf(s);
    forall l | l in s'.rows && s'.rows[l].family == s.rows[k].family ensures s'.rows[l].status.ActiveSession? <==> l == id {
      if s'.rows[l].status.ActiveSession? { OneActive(s', l, id); }
    }
  }

  // ---- What each request comes to

  /**
   * A token gets a new session exactly when its own is active, not yet past its expiry, and the new
   * token unknown. The new session then takes the old one's place, with the given token and expiry, and
   * nothing else changes; a refusal changes nothing either, except that a session past its expiry
   * expires and that the reuse of a rotated token revokes its family.
   */
  lemma RotationIff(s: Store, k: Id, digest: Id, expiresAt: Time, now: Time)
    requires k in s.rows
    ensures var (s', id) := Refreshed(s, k, digest, expiresAt, now);
            && (id.Some? <==> s.rows[k].status.ActiveSession? && now < s.rows[k].expiresAt
                              && forall l | l in s.rows :: s.rows[l].digest != digest)
            && (id.Some? ==>
                  && id.value == s.nextId
                  && s'.rows == s.rows[k := s.rows[k].(status := Rotated, replacedBy := id)]
                                      [id.value := Session(s.rows[k].user, s.rows[k].family, digest, ActiveSession, expiresAt, None)])
            && (id.None? ==>
                  match s.rows[k].status
                  case Rotated =>
                    && s'.rows.Keys == s.rows.Keys
                    && forall l | l in s.rows ::
                         s'.rows[l] == if s.rows[l].family == s.rows[k].family && s.rows[l].status.ActiveSession?
                                       then s.rows[l].(status := RevokedSession) else s.rows[l]
                  case ActiveSession =>
                    s'.rows == if s.rows[k].expiresAt <= now then s.rows[k := s.rows[k].(status := ExpiredSession)] else s.rows
                  case _ => s' == s)
  {
  }

  /** An active session at or past its expiry has no successor, and its family no active session in any later run. */
  lemma ExpiredEndsFamily(s: Store, k: Id, digest: Id, expiresAt: Time, now: Time, requests: seq<Request>)
    requires Valid(s) && k in s.rows && s.rows[k].status.ActiveSession? && s.rows[k].expiresAt <= now
    ensures Refreshed(s, k, digest, expiresAt, now).1.None?
    ensures var s' := HandledAll(Refreshed(s, k, digest, expiresAt, now).0, requests);
            forall l | l in s'.rows && s'.rows[l].family == s.rows[k].family :: !s'.rows[l].status.ActiveSession?
  {
    hide Valid, HandledAll;
    RefreshKeeps(s, k, digest, expiresAt, now);
    var s1 := Refreshed(s, k, digest, expiresAt, now).0;
    EndedIsDead(s1, k);
    DeadForever(s1, requests, s.rows[k].family);
  }

  /** So has a family whose active session was logged out. */
  lemma LogoutEndsFamily(s: Store, k: Id, requests: seq<Request>)
    requires Valid(s) && k in s.rows && s.rows[k].status.ActiveSession?
    ensures var s' := HandledAll(LoggedOut(s, k), requests);
            forall l | l in s'.rows && s'.rows[l].family == s.rows[k].family :: !s'.rows[l].status.ActiveSession?
  {
    hide Valid, HandledAll;
    LogoutKeeps(s, k);
    EndedIsDead(LoggedOut(s, k), k);
    DeadForever(LoggedOut(s, k), requests, s.rows[k].family);
  }

  /** A login opens a family of its own with one active session, unless its token is known. */
  lemma LoginOpens(s: Store, user: Id, digest: Id, expiresAt: Time)
    requires Valid(s)
    ensures var s' := LoggedIn(s, user, digest, expiresAt);
            if exists l :: l in s.rows && s.rows[l].digest == digest then s' == s
            else exists k: Id, f: Id :: k !in s.rows && (forall l | l in s.rows :: s.rows[l].family != f)
                                && s'.rows == s.rows[k := Session(user, f, digest, ActiveSession, expiresAt, None)]
  {
    hide Valid;
    var chains := ChainsOf(s);
    if !Known(s, digest) {
      FreshFamily(s, chains);
      assert LoggedIn(s, user, digest, expiresAt).rows ==
             s.rows[s.nextId + 1 := Session(user, s.nextId, digest, ActiveSession, expiresAt, None)];
    }
  }

  lemma FreshFamily(s: Store, chains: map<Id, seq<Id>>)
    requires Chained(s, chains)
    ensures s.nextId + 1 !in s.rows && forall l | l in s.rows :: s.rows[l].family != s.nextId
  {
    forall l | l in s.rows ensures s.rows[l].family != s.nextId {
      assert chains[s.rows[l].family] == chains[s.rows[l].family];
    }
  }
}
