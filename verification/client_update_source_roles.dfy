/** The client-policy condition that votes on a client registration or update
    according to the roles of whoever performs it: the authenticated
    administrator for the admin REST endpoints, or the subject of the bearer
    token for dynamic client registration. */
module ClientUpdateSourceRoles {
  import opened Wrappers

  type RoleId = string

  /** A user, reduced to the ids of every role it effectively holds (direct
      mappings, composites and group mappings already expanded), so that
      "the user has role r" is membership of r's id. */
  datatype User = User(effectiveRoles: set<RoleId>) {
    predicate HasRole(role: RoleId) {
      role in effectiveRoles
    }
  }

  /** The part of an access token the condition reads: its subject, which
      may be missing. */
  datatype Token = Token(subject: Option<string>)

  /** The realm of the current request: realm roles by name, the role
      containers of its clients (each a map from role name to role), and its
      users by id. */
  datatype Realm = Realm(
    roles: map<string, RoleId>,
    clients: seq<map<string, RoleId>>,
    users: map<string, User>)

  /** Lifecycle events a client policy is consulted on; the events other than
      registration and update are not told apart here. */
  datatype ClientPolicyEvent = Register | Update | OtherEvent(name: string)

  /** The concrete class of the policy context. */
  datatype ContextKind =
    | AdminClientRegister
    | AdminClientUpdate
    | DynamicClientRegister
    | DynamicClientUpdate
    | OtherContext

  /** A policy context: the event, the context's class, and what a
      client-CRUD context carries (the authenticated admin user and the
      registration token), either of which may be null. */
  datatype ClientPolicyContext = ClientPolicyContext(
    event: ClientPolicyEvent,
    kind: ContextKind,
    authenticatedUser: Option<User>,
    token: Option<Token>)

  datatype ClientPolicyVote = Yes | No | Abstain

  /** The error carried by a thrown client-policy exception. */
  datatype ClientPolicyError = ClientPolicyError(error: string, errorDetail: string)

  /** The OAuth error code for an internal server failure. */
  const ServerError: string := "server_error"

  const UnexpectedContext: ClientPolicyError :=
    ClientPolicyError(ServerError, "unexpected context type.")

  /** The condition's configuration; both fields may be left unset. */
  datatype Configuration = Configuration(
    negativeLogic: Option<bool>,
    roles: Option<seq<string>>)

  /** The configuration a fresh condition holds before one is set up. */
  const VacantConfiguration: Configuration := Configuration(None, None)

  /** Whether the framework is to invert this condition's vote; an unset
      flag counts as false. */
  function IsNegativeLogic(config: Configuration): (r: bool)
    ensures config.negativeLogic.None? ==> !r
    ensures config.negativeLogic.Some? ==> r == config.negativeLogic.value
  {
    config.negativeLogic.GetOr(false)
  }

  /** The configured role names as a set, or absent when none are configured. */
  function InstantiateRolesForMatching(config: Configuration): (r: Option<set<string>>)
    ensures r.None? <==> config.roles.None?
    ensures r.Some? ==> forall name :: name in r.value <==> name in config.roles.value
  {
    match config.roles
    case None => None
    case Some(names) => Some(set name | name in names)
  }

  /** The realm defines a role called `name` and the user holds it. */
  predicate RealmRoleGranted(realm: Realm, user: User, name: string) {
    name in realm.roles && user.HasRole(realm.roles[name])
  }

  /** The client defines a role called `name` and the user holds it. */
  predicate ClientRoleGranted(client: map<string, RoleId>, user: User, name: string) {
    name in client && user.HasRole(client[name])
  }

  /** Reference meaning of a configured role name matching: it names a realm
      role or a role of some client of the realm, and the user holds that
      role. */
  ghost predicate Grants(realm: Realm, user: User, name: string) {
    || RealmRoleGranted(realm, user, name)
    || exists j :: 0 <= j < |realm.clients| && ClientRoleGranted(realm.clients[j], user, name)
  }

  /** Reference meaning of the whole match: a user is present, roles are
      configured, and one of the configured names is granted to the user. */
  ghost predicate MatchesConfiguredRole(realm: Realm, config: Configuration, user: Option<User>) {
    && user.Some?
    && config.roles.Some?
    && exists name :: name in config.roles.value && Grants(realm, user.value, name)
  }

  /** Scans the realm's clients for one that defines `name` as a role the
      user holds. */
  function AnyClientGrants(clients: seq<map<string, RoleId>>, user: User, name: string): (b: bool)
    ensures b <==> exists j :: 0 <= j < |clients| && ClientRoleGranted(clients[j], user, name)
  {
    if |clients| == 0 then
      false
    else if ClientRoleGranted(clients[0], user, name) then
      true
    else
      var rest := AnyClientGrants(clients[1..], user, name);
      assert forall j :: 1 <= j < |clients| ==> clients[j] == clients[1..][j - 1];
      rest
  }

  /** Whether one expected role name is matched: first against the realm's
      own roles, then against every client's roles. */
  function IsRoleGranted(realm: Realm, user: User, name: string): (b: bool)
    ensures b <==> Grants(realm, user, name)
  {
    RealmRoleGranted(realm, user, name) || AnyClientGrants(realm.clients, user, name)
  }

  /** Whether the user matches the configuration: false for a null user or
      an unconfigured role list, otherwise whether any name of the
      de-duplicated role set is granted. */
  function IsRolesMatched(realm: Realm, config: Configuration, user: Option<User>): (matched: bool)
    ensures matched <==> MatchesConfiguredRole(realm, config, user)
    ensures config.roles.None? || config.roles == Some([]) ==> !matched
  {
    match user
    case None => false
    case Some(u) =>
      match InstantiateRolesForMatching(config)
      case None => false
      case Some(expected) => exists name | name in expected :: IsRoleGranted(realm, u, name)
  }

  /** The realm's user with the given id, or None when there is none. */
  function GetUserById(realm: Realm, id: string): (r: Option<User>)
    ensures r.Some? <==> id in realm.users
    ensures r.Some? ==> r.value == realm.users[id]
  {
    if id in realm.users then Some(realm.users[id]) else None
  }

  /** The user a registration token speaks for: present only when the token
      is present, has a subject, and the subject is a known user id. */
  function TokenSubjectUser(realm: Realm, token: Option<Token>): (r: Option<User>)
  {
    match token
    case None => None
    case Some(t) =>
      match t.subject
      case None => None
      case Some(id) => GetUserById(realm, id)
  }

  /** Whether the user with the given subject id matches; a null subject or
      an unknown id never matches. */
  function IsRoleMatched(realm: Realm, config: Configuration, subjectId: Option<string>): (matched: bool)
    ensures subjectId.None? ==> !matched
    ensures subjectId.Some? && subjectId.value !in realm.users ==> !matched
    ensures subjectId.Some? && subjectId.value in realm.users ==>
              (matched <==> MatchesConfiguredRole(realm, config, Some(realm.users[subjectId.value])))
  {
    match subjectId
    case None => false
    case Some(id) => IsRolesMatched(realm, config, GetUserById(realm, id))
  }

  /** The vote for an authenticated admin user. */
  function VoteForUser(realm: Realm, config: Configuration, user: Option<User>): (v: ClientPolicyVote)
    ensures v != Abstain
    ensures v == Yes <==> MatchesConfiguredRole(realm, config, user)
    ensures user.None? ==> v == No
  {
    if IsRolesMatched(realm, config, user) then Yes else No
  }

  /** The vote for the bearer of a registration token. */
  function VoteForToken(realm: Realm, config: Configuration, token: Option<Token>): (v: ClientPolicyVote)
    ensures v != Abstain
    ensures v == Yes <==> MatchesConfiguredRole(realm, config, TokenSubjectUser(realm, token))
    ensures token.None? ==> v == No
    ensures token.Some? && token.value.subject.None? ==> v == No
    ensures token.Some? && token.value.subject.Some? && token.value.subject.value !in realm.users ==> v == No
  {
    match token
    case None => No
    case Some(t) => if IsRoleMatched(realm, config, t.subject) then Yes else No
  }

  /** Registration and update are the events this condition votes on. */
  predicate IsClientCrudEvent(event: ClientPolicyEvent) {
    event.Register? || event.Update?
  }

  /** The context classes accepted for each voted-on event. */
  predicate IsAdminContextFor(event: ClientPolicyEvent, kind: ContextKind) {
    || (event.Register? && kind.AdminClientRegister?)
    || (event.Update? && kind.AdminClientUpdate?)
  }

  predicate IsDynamicContextFor(event: ClientPolicyEvent, kind: ContextKind) {
    || (event.Register? && kind.DynamicClientRegister?)
    || (event.Update? && kind.DynamicClientUpdate?)
  }

  /** The user whose roles decide the vote: the authenticated user in an
      admin context, the token's subject otherwise. */
  function VotingUser(realm: Realm, ctx: ClientPolicyContext): Option<User> {
    if IsAdminContextFor(ctx.event, ctx.kind) then ctx.authenticatedUser
    else TokenSubjectUser(realm, ctx.token)
  }

  /** The condition's decision for a policy context. */
  function ApplyPolicy(realm: Realm, config: Configuration, ctx: ClientPolicyContext)
    : (r: Result<ClientPolicyVote, ClientPolicyError>)
    ensures !IsClientCrudEvent(ctx.event) ==> r == Success(Abstain)
    ensures (&& IsClientCrudEvent(ctx.event)
             && !IsAdminContextFor(ctx.event, ctx.kind)
             && !IsDynamicContextFor(ctx.event, ctx.kind))
            ==> r == Failure(UnexpectedContext)
    ensures (IsAdminContextFor(ctx.event, ctx.kind) || IsDynamicContextFor(ctx.event, ctx.kind))
            ==> r.Success? && r.value != Abstain
    ensures r == Success(Yes) <==>
              && (IsAdminContextFor(ctx.event, ctx.kind) || IsDynamicContextFor(ctx.event, ctx.kind))
              && MatchesConfiguredRole(realm, config, VotingUser(realm, ctx))
  {
    match ctx.event
    case Register =>
      if ctx.kind.AdminClientRegister? then Success(VoteForUser(realm, config, ctx.authenticatedUser))
      else if ctx.kind.DynamicClientRegister? then Success(VoteForToken(realm, config, ctx.token))
      else Failure(UnexpectedContext)
    case Update =>
      if ctx.kind.AdminClientUpdate? then Success(VoteForUser(realm, config, ctx.authenticatedUser))
      else if ctx.kind.DynamicClientUpdate? then Success(VoteForToken(realm, config, ctx.token))
      else Failure(UnexpectedContext)
    case OtherEvent(_) =>
      Success(Abstain)
  }

  /** Two configurations listing the same role names, in whatever order and
      with whatever repetitions, and whatever negative-logic flag, give the
      same decision on every context. */
  lemma VoteDependsOnlyOnRoleSet(realm: Realm, c1: Configuration, c2: Configuration, ctx: ClientPolicyContext)
    requires c1.roles.Some? && c2.roles.Some?
    requires InstantiateRolesForMatching(c1).value == InstantiateRolesForMatching(c2).value
    ensures ApplyPolicy(realm, c1, ctx) == ApplyPolicy(realm, c2, ctx)
  {
  }

  /** Configuring more role names never turns a YES into a NO. */
  lemma MoreRolesKeepYes(realm: Realm, c1: Configuration, c2: Configuration, ctx: ClientPolicyContext)
    requires c1.roles.Some? && c2.roles.Some?
    requires InstantiateRolesForMatching(c1).value <= InstantiateRolesForMatching(c2).value
    requires ApplyPolicy(realm, c1, ctx) == Success(Yes)
    ensures ApplyPolicy(realm, c2, ctx) == Success(Yes)
  {
  }

  /** A condition whose configuration was never set up holds the vacant
      configuration: it never votes YES and its negative logic is off. */
  lemma VacantConfigurationNeverYes(realm: Realm, ctx: ClientPolicyContext)
    ensures ApplyPolicy(realm, VacantConfiguration, ctx) != Success(Yes)
    ensures !IsNegativeLogic(VacantConfiguration)
  {
  }
}
