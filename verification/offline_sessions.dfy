/** The durable offline-session store as its model test exercises it: user
    sessions promoted to offline, each with the ids of the clients whose
    sessions were promoted along with it and a last-refresh timestamp that
    decides idle expiry. Time is an explicit argument (seconds). */
module OfflineSessions {
  import opened Wrappers

  type SessionId = string
  type ClientId = string

  /** The durable projection of one offline user session. */
  datatype OfflineSession = OfflineSession(lastSessionRefresh: int, clients: set<ClientId>)

  /** All offline sessions of the realm, by user-session id. */
  type OfflineStore = map<SessionId, OfflineSession>

  /** The online user session being promoted, as far as the store reads it. */
  datatype UserSession = UserSession(id: SessionId, lastSessionRefresh: int)

  const EmptyStore: OfflineStore := map[]

  /** The offline session with the given id, or None when there is none. */
  function Find(store: OfflineStore, id: SessionId): (r: Option<OfflineSession>)
    ensures r.Some? <==> id in store
    ensures r.Some? ==> r.value == store[id]
  {
    if id in store then Some(store[id]) else None
  }

  /** The number of offline sessions; it is zero exactly when no id is
      found. */
  function Count(store: OfflineStore): (n: nat)
    ensures n == 0 <==> forall id :: Find(store, id) == None
  {
    assert store != map[] ==> exists id :: Find(store, id) != None by {
      if store != map[] {
        var id :| id in store;
        assert Find(store, id) != None;
      }
    }
    |store|
  }

  /** The client ids already promoted with session `id` (none if the session
      is not offline). */
  function PromotedClients(store: OfflineStore, id: SessionId): set<ClientId> {
    if id in store then store[id].clients else {}
  }

  /** Promotes one client session of `session`: the first call snapshots the
      session with just this client; later calls merge the client into the
      existing record and leave its timestamp alone. */
  function CreateOrUpdateOfflineSession(store: OfflineStore, session: UserSession, clientId: ClientId)
    : (r: OfflineStore)
    ensures r.Keys == store.Keys + {session.id}
    ensures r[session.id].clients == PromotedClients(store, session.id) + {clientId}
    ensures session.id !in store ==> r[session.id].lastSessionRefresh == session.lastSessionRefresh
    ensures session.id in store ==> r[session.id].lastSessionRefresh == store[session.id].lastSessionRefresh
    ensures forall id :: id in store && id != session.id ==> r[id] == store[id]
  {
    if session.id in store then
      var existing := store[session.id];
      store[session.id := existing.(clients := existing.clients + {clientId})]
    else
      store[session.id := OfflineSession(session.lastSessionRefresh, {clientId})]
  }

  /** Promoting the same client session twice leaves the store as one
      promotion does. */
  lemma CreateOrUpdateIsIdempotent(store: OfflineStore, session: UserSession, clientId: ClientId)
    ensures var once := CreateOrUpdateOfflineSession(store, session, clientId);
            CreateOrUpdateOfflineSession(once, session, clientId) == once
  {
  }

  /** Promoting two client sessions of one user session gives the same
      store in either order. */
  lemma CreateOrUpdateCommutes(store: OfflineStore, session: UserSession, a: ClientId, b: ClientId)
    ensures CreateOrUpdateOfflineSession(CreateOrUpdateOfflineSession(store, session, a), session, b)
         == CreateOrUpdateOfflineSession(CreateOrUpdateOfflineSession(store, session, b), session, a)
  {
    var ab := CreateOrUpdateOfflineSession(CreateOrUpdateOfflineSession(store, session, a), session, b);
    var ba := CreateOrUpdateOfflineSession(CreateOrUpdateOfflineSession(store, session, b), session, a);
    assert ab[session.id].clients == ba[session.id].clients;
    assert ab[session.id] == ba[session.id];
  }

  /** Promoting a client session adds one offline session when the user
      session was not yet offline, and none when it merges into an existing
      record. */
  lemma CountAfterCreateOrUpdate(store: OfflineStore, session: UserSession, clientId: ClientId)
    ensures Count(CreateOrUpdateOfflineSession(store, session, clientId))
         == Count(store) + (if session.id in store then 0 else 1)
  {
  }

  /** Promotes every given client session of `session` in turn, returning the
      new store and the set of client ids promoted. */
  function CreateOfflineSessionIncludeClientSessions(
    store: OfflineStore, session: UserSession, clientIds: seq<ClientId>)
    : (r: (OfflineStore, set<ClientId>))
    ensures r.1 == set c | c in clientIds
    ensures r.0.Keys == if |clientIds| == 0 then store.Keys else store.Keys + {session.id}
    ensures session.id in r.0 ==> r.0[session.id].clients == PromotedClients(store, session.id) + r.1
    ensures session.id in r.0 ==>
              r.0[session.id].lastSessionRefresh ==
                (if session.id in store then store[session.id].lastSessionRefresh else session.lastSessionRefresh)
    ensures forall id :: id in store && id != session.id ==> r.0[id] == store[id]
    decreases |clientIds|
  {
    if |clientIds| == 0 then
      (store, {})
    else
      var rest := CreateOfflineSessionIncludeClientSessions(
        CreateOrUpdateOfflineSession(store, session, clientIds[0]), session, clientIds[1..]);
      assert forall c :: c in clientIds <==> c == clientIds[0] || c in clientIds[1..];
      (rest.0, {clientIds[0]} + rest.1)
  }

  /** A session that was not yet offline, promoted with a non-empty list of
      client sessions, is found with exactly the promoted client ids. */
  lemma PromotedSessionFoundWithExactlyItsClients(
    store: OfflineStore, session: UserSession, clientIds: seq<ClientId>)
    requires session.id !in store
    requires |clientIds| > 0
    ensures var r := CreateOfflineSessionIncludeClientSessions(store, session, clientIds);
            Find(r.0, session.id) == Some(OfflineSession(session.lastSessionRefresh, r.1))
  {
  }

  /** Records a refresh of an offline session: only that session's
      timestamp changes. */
  function SetLastSessionRefresh(store: OfflineStore, id: SessionId, now: int): (r: OfflineStore)
    requires id in store
    ensures r.Keys == store.Keys
    ensures r[id].lastSessionRefresh == now
    ensures r[id].clients == store[id].clients
    ensures forall other :: other in store && other != id ==> r[other] == store[other]
  {
    store[id := store[id].(lastSessionRefresh := now)]
  }

  /** An offline session is idle-expired once more than `idleTimeout`
      seconds have passed since its last refresh. */
  predicate IsExpired(s: OfflineSession, now: int, idleTimeout: int) {
    now - s.lastSessionRefresh > idleTimeout
  }

  /** Removes every idle-expired offline session with its client sessions. */
  function RemoveExpired(store: OfflineStore, now: int, idleTimeout: int): (r: OfflineStore)
    ensures forall id :: id in r <==> id in store && !IsExpired(store[id], now, idleTimeout)
    ensures forall id :: id in r ==> r[id] == store[id]
  {
    map id | id in store && !IsExpired(store[id], now, idleTimeout) :: store[id]
  }

  /** A removed session is looked up as absent; a surviving one is found
      unchanged. */
  lemma FindAfterRemoveExpired(store: OfflineStore, now: int, idleTimeout: int, id: SessionId)
    ensures var r := RemoveExpired(store, now, idleTimeout);
            Find(r, id) == if id in store && !IsExpired(store[id], now, idleTimeout) then Find(store, id) else None
  {
  }

  /** Sweeping is idempotent, and a sweep followed by a later one leaves
      what the later one alone would: an interrupted sweep can be re-run. */
  lemma RemoveExpiredAgainAtLaterTime(store: OfflineStore, now1: int, now2: int, idleTimeout: int)
    requires now1 <= now2
    ensures RemoveExpired(RemoveExpired(store, now1, idleTimeout), now2, idleTimeout)
         == RemoveExpired(store, now2, idleTimeout)
  {
  }

  /** The ids a sweep removes. */
  function ExpiredIds(store: OfflineStore, now: int, idleTimeout: int): set<SessionId> {
    set id | id in store && IsExpired(store[id], now, idleTimeout)
  }

  /** The count drops by exactly the number of expired sessions. */
  lemma CountAfterRemoveExpired(store: OfflineStore, now: int, idleTimeout: int)
    ensures Count(RemoveExpired(store, now, idleTimeout)) + |ExpiredIds(store, now, idleTimeout)| == Count(store)
  {
    var r := RemoveExpired(store, now, idleTimeout);
    var gone := ExpiredIds(store, now, idleTimeout);
    assert store.Keys == r.Keys + gone;
    assert r.Keys !! gone;
  }

  /** Expiry boundary: a session refreshed at `now` survives a sweep `d`
      seconds later exactly when `d` does not exceed the idle timeout. */
  lemma RefreshThenSweep(store: OfflineStore, id: SessionId, now: int, d: int, idleTimeout: int)
    requires id in store
    ensures id in RemoveExpired(SetLastSessionRefresh(store, id, now), now + d, idleTimeout) <==> d <= idleTimeout
  {
  }
}
