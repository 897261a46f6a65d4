/** The expiry scenario of the offline-session model test, stated for every
    idle timeout it is meant to pass with. Times are seconds on the test's
    clock, whose offset starts at 0. */
module OfflineSessionExpiryTest {
  import opened Wrappers
  import opened OfflineSessions

  const Day: int := 86400

  /** The clock offset of the i-th refresh of session 0 (i = 0, 1): day 20
      and day 21. */
  function RefreshOffset(i: nat): int {
    1728000 + i * Day
  }

  /** The clock offset of the first sweep (day 40). */
  const FirstSweepOffset: int := 3456000

  /** The clock offset of the sweep that expires everything. */
  const FinalSweepOffset: int := 7000000

  /** The ids of the sessions are pairwise distinct. */
  ghost predicate DistinctIds(sessions: seq<UserSession>) {
    forall i, j :: 0 <= i < j < |sessions| ==> sessions[i].id != sessions[j].id
  }

  /** The ids of the sessions from position k on that have at least one
      client session. */
  function PromotedIds(sessions: seq<UserSession>, clientIds: seq<seq<ClientId>>, k: nat): set<SessionId>
    requires |sessions| == |clientIds|
  {
    set i | k <= i < |sessions| && |clientIds[i]| > 0 :: sessions[i].id
  }

  /** Promotes each online session from position k on together with all of
      its client sessions, one user session after the other. */
  function PromoteFrom(store: OfflineStore, sessions: seq<UserSession>, clientIds: seq<seq<ClientId>>, k: nat)
    : (r: OfflineStore)
    requires k <= |sessions| == |clientIds|
    requires DistinctIds(sessions)
    requires forall i :: k <= i < |sessions| ==> sessions[i].id !in store
    ensures r.Keys == store.Keys + PromotedIds(sessions, clientIds, k)
    ensures forall id :: id in store ==> r[id] == store[id]
    ensures forall i :: k <= i < |sessions| && |clientIds[i]| > 0 ==>
              r[sessions[i].id] == OfflineSession(sessions[i].lastSessionRefresh, set c | c in clientIds[i])
    decreases |sessions| - k
  {
    if k == |sessions| then
      store
    else
      var first := CreateOfflineSessionIncludeClientSessions(store, sessions[k], clientIds[k]).0;
      PromoteOneStep(store, sessions, clientIds, k);
      PromoteFrom(first, sessions, clientIds, k + 1)
  }

  /** One step of the promotion loop: session k is added (when it has client
      sessions) with its snapshot, the sessions still to come stay absent,
      and the ids promoted from k on are those from k + 1 on plus session k. */
  lemma PromoteOneStep(store: OfflineStore, sessions: seq<UserSession>, clientIds: seq<seq<ClientId>>, k: nat)
    requires k < |sessions| == |clientIds|
    requires DistinctIds(sessions)
    requires forall i :: k <= i < |sessions| ==> sessions[i].id !in store
    ensures var first := CreateOfflineSessionIncludeClientSessions(store, sessions[k], clientIds[k]).0;
            && first.Keys == store.Keys + (if |clientIds[k]| > 0 then {sessions[k].id} else {})
            && (forall i :: k < i < |sessions| ==> sessions[i].id !in first)
            && (|clientIds[k]| > 0 ==>
                  first[sessions[k].id] == OfflineSession(sessions[k].lastSessionRefresh, set c | c in clientIds[k]))
    ensures PromotedIds(sessions, clientIds, k)
         == (if |clientIds[k]| > 0 then {sessions[k].id} else {}) + PromotedIds(sessions, clientIds, k + 1)
  {
  }

  /** The promotion loop of the test, over all sessions of the client. */
  function PromoteAll(sessions: seq<UserSession>, clientIds: seq<seq<ClientId>>): (r: OfflineStore)
    requires |sessions| == |clientIds|
    requires DistinctIds(sessions)
    ensures r.Keys == PromotedIds(sessions, clientIds, 0)
    ensures forall i :: 0 <= i < |sessions| && |clientIds[i]| > 0 ==>
              r[sessions[i].id] == OfflineSession(sessions[i].lastSessionRefresh, set c | c in clientIds[i])
  {
    PromoteFrom(EmptyStore, sessions, clientIds, 0)
  }

  /** A refresh write that may or may not reach the durable store before the
      next sweep (refresh times reach it through a debounced background
      flush). */
  function MaybeRefresh(store: OfflineStore, id: SessionId, now: int, landed: bool): (r: OfflineStore)
    requires id in store
    ensures r.Keys == store.Keys
    ensures r[id].clients == store[id].clients
    ensures r[id].lastSessionRefresh == if landed then now else store[id].lastSessionRefresh
    ensures forall other :: other in store && other != id ==> r[other] == store[other]
  {
    if landed then SetLastSessionRefresh(store, id, now) else store
  }

  /** The refreshes of session 0: at offset 300, then at day 20 and day 21;
      each flag says whether that write reached the durable store. */
  function RefreshSessionZero(store: OfflineStore, id: SessionId, landed300: bool, landed20: bool, landed21: bool)
    : (r: OfflineStore)
    requires id in store
    ensures r.Keys == store.Keys
    ensures r[id].clients == store[id].clients
    ensures forall other :: other in store && other != id ==> r[other] == store[other]
    ensures landed21 ==> r[id].lastSessionRefresh == RefreshOffset(1)
    ensures !landed21 && landed20 ==> r[id].lastSessionRefresh == RefreshOffset(0)
  {
    var s := MaybeRefresh(store, id, 300, landed300);
    var s := MaybeRefresh(s, id, RefreshOffset(0), landed20);
    MaybeRefresh(s, id, RefreshOffset(1), landed21)
  }

  /** The setup of the scenario: three distinct online sessions, each with at
      least one client session, all last refreshed when created at time 0. */
  ghost predicate ScenarioSetup(sessions: seq<UserSession>, clientIds: seq<seq<ClientId>>) {
    && |sessions| == 3
    && |clientIds| == 3
    && DistinctIds(sessions)
    && (forall i :: 0 <= i < 3 ==> sessions[i].lastSessionRefresh == 0)
    && (forall i :: 0 <= i < 3 ==> |clientIds[i]| > 0)
  }

  /** Promotion: every promoted session is found with exactly its client ids,
      and there are three offline sessions. */
  lemma {:induction false} PromotionStage(sessions: seq<UserSession>, clientIds: seq<seq<ClientId>>)
    requires ScenarioSetup(sessions, clientIds)
    ensures var p := PromoteAll(sessions, clientIds);
            && (forall i :: 0 <= i < 3 ==> Find(p, sessions[i].id) == Some(OfflineSession(0, set c | c in clientIds[i])))
            && Count(p) == 3
  {
    var p := PromoteAll(sessions, clientIds);
    assert PromotedIds(sessions, clientIds, 0) == {sessions[0].id, sessions[1].id, sessions[2].id} by {
      assert sessions[0].id in PromotedIds(sessions, clientIds, 0);
      assert sessions[1].id in PromotedIds(sessions, clientIds, 0);
      assert sessions[2].id in PromotedIds(sessions, clientIds, 0);
    }
    assert p.Keys == {sessions[0].id, sessions[1].id, sessions[2].id};
  }

  /** The promoted store holds exactly the three sessions, each with its
      creation-time refresh. */
  lemma {:induction false} PromotedShape(sessions: seq<UserSession>, clientIds: seq<seq<ClientId>>)
    requires ScenarioSetup(sessions, clientIds)
    ensures var p := PromoteAll(sessions, clientIds);
            && p.Keys == {sessions[0].id, sessions[1].id, sessions[2].id}
            && p[sessions[1].id].lastSessionRefresh == 0
            && p[sessions[2].id].lastSessionRefresh == 0
  {
  }

  /** The day-40 sweep: session 0, last refreshed on day 20 or 21, survives
      unchanged; sessions 1 and 2, never refreshed since creation, are
      removed. */
  lemma {:induction false} FirstSweepStage(
    q: OfflineStore, id0: SessionId, id1: SessionId, id2: SessionId, idleTimeout: int)
    requires q.Keys == {id0, id1, id2}
    requires id0 != id1 && id0 != id2
    requires RefreshOffset(0) <= q[id0].lastSessionRefresh <= RefreshOffset(1)
    requires q[id1].lastSessionRefresh == 0 && q[id2].lastSessionRefresh == 0
    requires RefreshOffset(0) <= idleTimeout < FirstSweepOffset
    ensures var s1 := RemoveExpired(q, FirstSweepOffset, idleTimeout);
            && s1.Keys == {id0}
            && Find(s1, id0) == Find(q, id0)
            && Find(s1, id1) == None
            && Find(s1, id2) == None
            && Count(s1) == 1
  {
  }

  /** The final sweep at offset 7000000 removes session 0 as well. */
  lemma {:induction false} FinalSweepStage(s1: OfflineStore, id0: SessionId, idleTimeout: int)
    requires s1.Keys == {id0}
    requires s1[id0].lastSessionRefresh <= RefreshOffset(1)
    requires idleTimeout < FirstSweepOffset
    ensures var s2 := RemoveExpired(s1, FinalSweepOffset, idleTimeout);
            && Find(s2, id0) == None
            && Count(s2) == 0
  {
  }

  /** The durable store just before the first sweep: the three sessions
      promoted, then session 0 refreshed by whichever writes landed. */
  function BeforeFirstSweep(
    sessions: seq<UserSession>, clientIds: seq<seq<ClientId>>,
    landed300: bool, landed20: bool, landed21: bool): OfflineStore
    requires ScenarioSetup(sessions, clientIds)
  {
    RefreshSessionZero(PromoteAll(sessions, clientIds), sessions[0].id, landed300, landed20, landed21)
  }

  /** The first part of the expiry test: after the day-40 sweep, session 0 is
      found unchanged, sessions 1 and 2 are absent, and one offline session
      is left. */
  lemma {:induction false} TestExpiredFirstSweep(
    sessions: seq<UserSession>, clientIds: seq<seq<ClientId>>, idleTimeout: int,
    landed300: bool, landed20: bool, landed21: bool)
    requires ScenarioSetup(sessions, clientIds)
    requires RefreshOffset(0) <= idleTimeout < FirstSweepOffset
    requires landed20 || landed21
    ensures var q := BeforeFirstSweep(sessions, clientIds, landed300, landed20, landed21);
            var s1 := RemoveExpired(q, FirstSweepOffset, idleTimeout);
            && s1.Keys == {sessions[0].id}
            && s1[sessions[0].id].lastSessionRefresh <= RefreshOffset(1)
            && Find(s1, sessions[0].id).Some?
            && Find(s1, sessions[0].id) == Find(q, sessions[0].id)
            && Find(s1, sessions[1].id) == None
            && Find(s1, sessions[2].id) == None
            && Count(s1) == 1
  {
  }

  /** The whole expiry test, for every idle timeout in [day 20, day 40) and
      whichever of the day-20 and day-21 refreshes (at least one) reached the
      durable store: after promotion each session is found with exactly its
      client ids and there are three offline sessions; the day-40 sweep keeps
      session 0 unchanged and removes sessions 1 and 2, leaving one offline
      session; the sweep at offset 7000000 removes everything. */
  lemma {:induction false} TestExpired(
    sessions: seq<UserSession>, clientIds: seq<seq<ClientId>>, idleTimeout: int,
    landed300: bool, landed20: bool, landed21: bool)
    requires ScenarioSetup(sessions, clientIds)
    requires RefreshOffset(0) <= idleTimeout < FirstSweepOffset
    requires landed20 || landed21
    ensures var p := PromoteAll(sessions, clientIds);
            && (forall i :: 0 <= i < 3 ==> Find(p, sessions[i].id) == Some(OfflineSession(0, set c | c in clientIds[i])))
            && Count(p) == 3
    ensures var q := BeforeFirstSweep(sessions, clientIds, landed300, landed20, landed21);
            var s1 := RemoveExpired(q, FirstSweepOffset, idleTimeout);
            && Find(s1, sessions[0].id).Some?
            && Find(s1, sessions[0].id) == Find(q, sessions[0].id)
            && Find(s1, sessions[1].id) == None
            && Find(s1, sessions[2].id) == None
            && Count(s1) == 1
            && var s2 := RemoveExpired(s1, FinalSweepOffset, idleTimeout);
            && (forall i :: 0 <= i < 3 ==> Find(s2, sessions[i].id) == None)
            && Count(s2) == 0
  {
    PromotionStage(sessions, clientIds);
    TestExpiredFirstSweep(sessions, clientIds, idleTimeout, landed300, landed20, landed21);
    var q := BeforeFirstSweep(sessions, clientIds, landed300, landed20, landed21);
    var s1 := RemoveExpired(q, FirstSweepOffset, idleTimeout);
    FinalSweepStage(s1, sessions[0].id, idleTimeout);
    var s2 := RemoveExpired(s1, FinalSweepOffset, idleTimeout);
    assert s2.Keys == {};
  }
}
