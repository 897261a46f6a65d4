# Client-update role condition and offline user-session store

This project models two pieces of an identity and access management server.

1. The client-policy condition `ClientUpdateSourceRolesCondition`. It is consulted when a
   client is registered or updated. It votes YES when the party doing the
   registration or update holds one of the configured roles, and NO
   otherwise. That party is the authenticated administrator on the admin
   endpoints. On dynamic client registration it is the subject of the
   registration token. The condition abstains on every other event. It
   fails with `server_error` when a registration or update comes with a
   context of an unexpected class.
2. The durable store of offline user sessions, exercised by the offline
   session model test. Sessions are promoted to offline together with
   their client sessions. A session's last-refresh time is updated when it
   is used. A sweep removes the sessions that have been idle for longer
   than the realm's offline idle timeout. The test's `testExpired`
   scenario is stated as a lemma that holds for every idle timeout from
   day 20 (1728000 s) up to, but not including, day 40 (3456000 s).

Modules:

- `Wrappers` (`wrappers.dfy`): `Option` stands in for Java `null`, and
  `Result` stands in for a thrown exception.
- `ClientUpdateSourceRoles` (`client_update_source_roles.dfy`): the
  condition. It has a reference predicate for each notion of matching
  (`Grants` and `MatchesConfiguredRole`), and the executable functions are
  proved against those predicates.
- `OfflineSessions` (`offline_sessions.dfy`): the offline store, as an
  immutable map from user-session id to a last-refresh time and a set of
  client ids. Time is an explicit argument.
- `OfflineSessionExpiryTest` (`offline_session_expiry_test.dfy`): the
  promotion loop and the refresh and sweep steps of `testExpired`, with the
  scenario lemma.

Choices made in modelling:

- A user is the set of ids of the roles it effectively holds. So
  `user.hasRole(role)` is set membership, and composite roles and group
  mappings are taken as already expanded.
- A realm holds its realm roles by name, the role maps of its clients in
  client order, and its users by id. `getUserById` returns absent for an
  unknown id.
- The events other than REGISTER and UPDATE are one constructor,
  `OtherEvent(name)`. The event enumeration is not part of this model.
- A context's event and its concrete class are independent fields, because
  the source checks the class separately for each event. A REGISTER event
  carried by an update context is therefore a `server_error`.
- The configured role list becomes a set before matching.
  `IsRolesMatched` asks whether some member of that set matches, just as
  the source's `anyMatch` over a `HashSet` does.
- The offline store uses this expiry rule: a session is expired when
  `now - lastSessionRefresh > idleTimeout`. A session refreshed at `t`
  therefore survives a sweep at exactly `t + idleTimeout`. The code that
  decides expiry is not part of this model. The test only fixes the timeout to a range, and the rule chosen
  here meets the test over that whole range.
- `SetLastSessionRefresh` overwrites the timestamp at once. In the source,
  refresh times reach the durable store through a debounced background
  flush. The test comment at lines 158-160 says that at least one of the
  day-20 and day-21 writes lands. So the scenario takes one flag per write
  saying whether it reached the store, and requires that one of the two
  did.
- The online sessions of the scenario are created at time 0 on the test's
  clock, before any offset is set. The real time that passes while the
  test runs is not modelled.

## Model

| member | source | states |
|---|---|---|
| ClientUpdateSourceRoles.ApplyPolicy | services/src/main/java/org/keycloak/services/clientpolicy/condition/ClientUpdateSourceRolesCondition.java:104-126 | Any event other than REGISTER or UPDATE yields ABSTAIN, whatever the context. REGISTER or UPDATE with a context that is neither the matching admin class nor the matching dynamic class fails with server_error. A matching context always yields YES or NO, never ABSTAIN. The result is YES exactly when the voting user (the authenticated user for admin contexts, the token's subject for dynamic ones) matches a configured role. |
| ClientUpdateSourceRoles.VoteForUser | services/src/main/java/org/keycloak/services/clientpolicy/condition/ClientUpdateSourceRolesCondition.java:128-131 | The vote on a user is never ABSTAIN. It is YES exactly when the user is present and holds a role named by the configuration. A null user gets NO. |
| ClientUpdateSourceRoles.VoteForToken | services/src/main/java/org/keycloak/services/clientpolicy/condition/ClientUpdateSourceRolesCondition.java:133-137 | The vote on a token is never ABSTAIN. It is YES exactly when the token's subject names a known user who matches. A null token, a null subject and an unknown subject id each get NO. |
| ClientUpdateSourceRoles.IsRoleMatched | services/src/main/java/org/keycloak/services/clientpolicy/condition/ClientUpdateSourceRolesCondition.java:139-142 | A null subject id and an unknown one never match. A known id matches exactly when the user it names matches the configuration. |
| ClientUpdateSourceRoles.IsRolesMatched | services/src/main/java/org/keycloak/services/clientpolicy/condition/ClientUpdateSourceRolesCondition.java:144-172 | The user matches exactly when it is present, roles are configured, and some configured name names a realm role or a role of some client that the user holds. An unconfigured list and an empty list never match. |
| ClientUpdateSourceRoles.IsRoleGranted | services/src/main/java/org/keycloak/services/clientpolicy/condition/ClientUpdateSourceRolesCondition.java:159-169 | One role name matches exactly when the realm defines a role of that name that the user holds, or some client of the realm does. |
| ClientUpdateSourceRoles.AnyClientGrants | services/src/main/java/org/keycloak/services/clientpolicy/condition/ClientUpdateSourceRolesCondition.java:163-168 | The scan over the realm's clients succeeds exactly when some client defines the name as a role that the user holds. |
| ClientUpdateSourceRoles.InstantiateRolesForMatching | services/src/main/java/org/keycloak/services/clientpolicy/condition/ClientUpdateSourceRolesCondition.java:174-178 | The result is absent exactly when no role list is configured. Otherwise it is a set with the same members as the list. |
| ClientUpdateSourceRoles.IsNegativeLogic | services/src/main/java/org/keycloak/services/clientpolicy/condition/ClientUpdateSourceRolesCondition.java:94-97 | An unset negative-logic flag reads as false. A set flag reads as its value. |
| ClientUpdateSourceRoles.GetUserById | services/src/main/java/org/keycloak/services/clientpolicy/condition/ClientUpdateSourceRolesCondition.java:141 | A user lookup by id finds a user exactly when the realm has one with that id, and otherwise gives absent. |
| ClientUpdateSourceRoles.VoteDependsOnlyOnRoleSet | services/src/main/java/org/keycloak/services/clientpolicy/condition/ClientUpdateSourceRolesCondition.java:147-177 | Two configurations that list the same role names give the same decision on every context. Order, repetitions and the negative-logic flag make no difference. |
| ClientUpdateSourceRoles.MoreRolesKeepYes | services/src/main/java/org/keycloak/services/clientpolicy/condition/ClientUpdateSourceRolesCondition.java:159-171 | Configuring a superset of role names never turns a YES into a NO. |
| ClientUpdateSourceRoles.VacantConfigurationNeverYes | services/src/main/java/org/keycloak/services/clientpolicy/condition/ClientUpdateSourceRolesCondition.java:52-53 | A condition whose configuration was never set up holds the vacant configuration. It never votes YES, and its negative logic is off. |
| OfflineSessions.Count | testsuite/model/src/test/java/org/keycloak/testsuite/model/session/UserSessionProviderOfflineModelTest.java:148-211 | The offline count is 0 exactly when no id is found. The test reads the count at lines 148, 195 and 211. |
| OfflineSessions.CountAfterCreateOrUpdate | testsuite/model/src/test/java/org/keycloak/testsuite/model/session/UserSessionProviderOfflineModelTest.java:229-231 | Promoting a client session raises the count by one when the user session was not yet offline, and leaves it unchanged when the client merges into an existing record. |
| OfflineSessions.Find | testsuite/model/src/test/java/org/keycloak/testsuite/model/session/UserSessionProviderOfflineModelTest.java:192-193 | A lookup finds a record exactly when one is stored under the id. An unknown id gives absent, not an error. |
| OfflineSessions.CreateOrUpdateOfflineSession | testsuite/model/src/test/java/org/keycloak/testsuite/model/session/UserSessionProviderOfflineModelTest.java:229-231 | Promoting one client session adds the session's id to the store. The record's client set gains the client id. A new record takes the online session's refresh time, and an existing record keeps its own. No other record changes. |
| OfflineSessions.CreateOrUpdateIsIdempotent | testsuite/model/src/test/java/org/keycloak/testsuite/model/session/UserSessionProviderOfflineModelTest.java:229-231 | Promoting the same client session twice leaves the store as one promotion does. |
| OfflineSessions.CreateOrUpdateCommutes | testsuite/model/src/test/java/org/keycloak/testsuite/model/session/UserSessionProviderOfflineModelTest.java:229-231 | Promotions of two client sessions of one user session merge into the same record in either order. |
| OfflineSessions.CreateOfflineSessionIncludeClientSessions | testsuite/model/src/test/java/org/keycloak/testsuite/model/session/UserSessionProviderOfflineModelTest.java:225-235 | The returned set is the set of client ids passed in. The record's client set is its earlier client set plus exactly that set. The record exists if and only if some client session was passed or it existed before. No other record changes. |
| OfflineSessions.PromotedSessionFoundWithExactlyItsClients | testsuite/model/src/test/java/org/keycloak/testsuite/model/session/UserSessionProviderOfflineModelTest.java:128-134 | A session that was not offline, promoted with a non-empty list of client sessions, is found with exactly the returned client-id set and with its online refresh time. |
| OfflineSessions.SetLastSessionRefresh | testsuite/model/src/test/java/org/keycloak/testsuite/model/session/UserSessionProviderOfflineModelTest.java:168-169 | A refresh sets that session's timestamp to the given time. Its clients, the set of ids and every other record stay unchanged. |
| OfflineSessions.RemoveExpired | testsuite/model/src/test/java/org/keycloak/testsuite/model/session/UserSessionProviderOfflineModelTest.java:182-183 | After a sweep, a session remains exactly when it was stored and is not idle-expired. Survivors are unchanged. |
| OfflineSessions.FindAfterRemoveExpired | testsuite/model/src/test/java/org/keycloak/testsuite/model/session/UserSessionProviderOfflineModelTest.java:190-193 | After a sweep, a lookup of a removed id gives absent, and a lookup of a survivor gives the same record as before. |
| OfflineSessions.RemoveExpiredAgainAtLaterTime | testsuite/model/src/test/java/org/keycloak/testsuite/model/session/UserSessionProviderOfflineModelTest.java:197-200 | A sweep followed by a sweep at the same or a later time leaves what the later sweep alone leaves. With equal times, this says a sweep is idempotent. |
| OfflineSessions.CountAfterRemoveExpired | testsuite/model/src/test/java/org/keycloak/testsuite/model/session/UserSessionProviderOfflineModelTest.java:195 | A sweep lowers the offline count by exactly the number of expired sessions. |
| OfflineSessions.RefreshThenSweep | testsuite/model/src/test/java/org/keycloak/testsuite/model/session/UserSessionProviderOfflineModelTest.java:161-183 | A session refreshed at `now` survives a sweep `d` seconds later exactly when `d` does not exceed the idle timeout. |
| OfflineSessionExpiryTest.PromoteFrom | testsuite/model/src/test/java/org/keycloak/testsuite/model/session/UserSessionProviderOfflineModelTest.java:128-129 | Promoting each session from a position on adds exactly the ids of those sessions that have client sessions. Each added record holds the session's refresh time and exactly its client ids. Earlier records stay unchanged. |
| OfflineSessionExpiryTest.PromoteAll | testsuite/model/src/test/java/org/keycloak/testsuite/model/session/UserSessionProviderOfflineModelTest.java:126-129 | Promoting all sessions of the client into an empty store gives one record per session with client sessions. Each record holds exactly that session's client ids. |
| OfflineSessionExpiryTest.MaybeRefresh | testsuite/model/src/test/java/org/keycloak/testsuite/model/session/UserSessionProviderOfflineModelTest.java:158-160 | A refresh write that lands sets the session's timestamp to the given time, and one that does not land leaves it as it was. Either way, the set of ids, the refreshed session's clients and every other record are unchanged. |
| OfflineSessionExpiryTest.RefreshSessionZero | testsuite/model/src/test/java/org/keycloak/testsuite/model/session/UserSessionProviderOfflineModelTest.java:150-172 | After the refreshes of session 0, its timestamp is day 21 if that write landed. Otherwise it is day 20 if that write landed. Nothing else changes. |
| OfflineSessionExpiryTest.PromotionStage | testsuite/model/src/test/java/org/keycloak/testsuite/model/session/UserSessionProviderOfflineModelTest.java:131-148 | After promotion, each of the three sessions is found with exactly its client ids, and the offline count is 3. |
| OfflineSessionExpiryTest.PromotedShape | testsuite/model/src/test/java/org/keycloak/testsuite/model/session/UserSessionProviderOfflineModelTest.java:116-148 | The promoted store holds exactly the three sessions. Sessions 1 and 2 still carry their creation-time refresh, 0. |
| OfflineSessionExpiryTest.FirstSweepStage | testsuite/model/src/test/java/org/keycloak/testsuite/model/session/UserSessionProviderOfflineModelTest.java:174-195 | At day 40, with a timeout in [day 20, day 40), session 0 (refreshed on day 20 or 21) survives unchanged and sessions 1 and 2 (refreshed at 0) are removed. One session is left. |
| OfflineSessionExpiryTest.FinalSweepStage | testsuite/model/src/test/java/org/keycloak/testsuite/model/session/UserSessionProviderOfflineModelTest.java:197-211 | At offset 7000000, session 0 is removed too and the count is 0. |
| OfflineSessionExpiryTest.TestExpiredFirstSweep | testsuite/model/src/test/java/org/keycloak/testsuite/model/session/UserSessionProviderOfflineModelTest.java:116-195 | Through the first sweep of the test: session 0 is found unchanged, sessions 1 and 2 are absent, and the count is 1. |
| OfflineSessionExpiryTest.TestExpired | testsuite/model/src/test/java/org/keycloak/testsuite/model/session/UserSessionProviderOfflineModelTest.java:99-223 | The whole scenario holds for every idle timeout in [1728000, 3456000) and for either landing of the day-20 and day-21 refresh writes. After promotion, each of the three sessions is found with exactly its client ids, and the count is 3. After the day-40 sweep, session 0 is found unchanged, sessions 1 and 2 are absent, and the count is 1. After the final sweep, all three are absent and the count is 0. |

## Left out

- `SecureSigningAlgorithmEnforceExecutorFactory`: the factory only holds a provider id, help text and one configuration property. The executor it creates is not part of this model.
- Inverting the vote under negative logic: the policy framework does that, not the condition. Only the flag's reading is modelled (`IsNegativeLogic`).
- Role composites, group role mappings and the internals of `hasRole`: a user is its set of effective role ids.
- Trace logging, and the set of the user's role names built only for logging.
- Binding the configuration from JSON.
- Suspending and rescheduling the periodic refresh-flush task, and the debounced flush itself: these are scheduling and concurrency. Each refresh is either an immediate write or a write that never lands (`MaybeRefresh`).
- The global time offset, the testing time service and the time-offset reset event: time is an explicit argument.
- Committed-transaction wrappers, the clustered cache, and the copying between online and offline caches: these are persistence and cluster plumbing. The store is one immutable map.
- Creating and removing the realm, the users and the clients around the test.
- Expiry by maximum lifespan: the test does not exercise it, so `IsExpired` checks the idle timeout only.
- The durable refresh update that keeps the later of two timestamps: the code that performs it is not part of this model. `SetLastSessionRefresh` overwrites, which is what the test's calls, made in increasing time order, rely on.
- The number of sessions a sweep removes is not returned. `CountAfterRemoveExpired` states it as the difference in counts.
