/** The session gate of the developer portal: the protected application
    resolves the current user and the tenant before it shows the routed
    application, and in the meantime shows a loading screen or the tenant
    listing. */
module SessionGate {
  import opened Wrappers

  /** The scope a user needs to be authenticated in the developer portal. */
  const SubscribeScope := "apim:subscribe"
  /** The tenant domain the settings context holds when the tenant does not exist. */
  const InvalidTenant := "INVALID"

  datatype User = User(scopes: seq<string>)
  datatype Tenant = Tenant(domain: string)
  datatype Environment = Environment(name: string)

  predicate HasSubscribeScope(user: User)
  {
    SubscribeScope in user.scopes
  }

  /** JavaScript truthiness of a parsed query parameter: absent and empty are both false. */
  predicate Truthy(param: Option<string>)
  {
    param.Some? && param.value != ""
  }

  /** The component's state (`userResolved`, `scopesFound`, `tenantList`)
      together with its `environments` instance field. */
  datatype SessionState = SessionState(
    userResolved: bool,
    scopesFound: bool,
    tenantList: Option<seq<Tenant>>,
    environments: seq<Environment>)

  /** The state the constructor sets up. */
  const InitialState := SessionState(false, false, None, [])

  /** The required scope is never recorded for a user that is not resolved. */
  predicate Consistent(s: SessionState)
  {
    s.scopesFound ==> s.userResolved
  }

  /** A known user, cached or obtained from the token, or the absence of one:
      either way the user is resolved, and the scope is recorded only for a
      user that holds it. */
  function ResolveUser(s: SessionState, user: Option<User>): (t: SessionState)
    ensures t.userResolved
    ensures t.scopesFound <==> s.scopesFound || (user.Some? && HasSubscribeScope(user.value))
    ensures t.tenantList == s.tenantList && t.environments == s.environments
    ensures Consistent(t)
  {
    if user.Some? && HasSubscribeScope(user.value) then
      s.(userResolved := true, scopesFound := true)
    else
      s.(userResolved := true)
  }

  /** What mounting asks of the collaborators: the tenant domain handed to the
      settings context, and whether the tenant list, the environment
      configuration and the user from the token are requested. */
  datatype Requests = Requests(
    setTenantDomain: Option<string>,
    fetchTenants: bool,
    fetchEnvironments: bool,
    fetchUserFromToken: bool)

  datatype Mounted = Mounted(state: SessionState, requests: Requests)

  /** The synchronous part of mounting. A tenant query parameter is adopted at
      once and empties the tenant list; otherwise the list is requested. A
      cached user is resolved at once; otherwise it is requested from the
      token. The environment configuration is always requested. */
  function Mount(s: SessionState, tenant: Option<string>, cachedUser: Option<User>): (m: Mounted)
    ensures Truthy(tenant) ==>
      m.state.tenantList == Some([]) && m.requests.setTenantDomain == tenant && !m.requests.fetchTenants
    ensures !Truthy(tenant) ==>
      m.state.tenantList == s.tenantList && m.requests.setTenantDomain == None && m.requests.fetchTenants
    ensures m.requests.fetchEnvironments && m.state.environments == s.environments
    ensures cachedUser.Some? ==>
      && m.state.userResolved
      && (m.state.scopesFound <==> s.scopesFound || HasSubscribeScope(cachedUser.value))
      && !m.requests.fetchUserFromToken
    ensures cachedUser.None? ==>
      && m.state.userResolved == s.userResolved
      && m.state.scopesFound == s.scopesFound
      && m.requests.fetchUserFromToken
    ensures Consistent(s) ==> Consistent(m.state)
  {
    var withTenants := if Truthy(tenant) then s.(tenantList := Some([])) else s;
    var withUser := if cachedUser.Some? then ResolveUser(withTenants, cachedUser) else withTenants;
    Mounted(withUser, Requests(if Truthy(tenant) then tenant else None, !Truthy(tenant), true, cachedUser.None?))
  }

  /** The settlement of one request issued on mount. */
  datatype Completion =
    | TenantsLoaded(list: seq<Tenant>)
    | TenantsFailed
    | EnvironmentsLoaded(environments: seq<Environment>)
    | EnvironmentsFailed
    | TokenUser(user: Option<User>)
    | TokenFailed

  /** The completions that settle the user. */
  predicate ResolvesUser(c: Completion)
  {
    c.TokenUser? || c.TokenFailed?
  }

  /** The state after one completion: every outcome of the token request
      resolves the user, a loaded tenant list replaces the list, a loaded
      environment configuration replaces the environments, and a failed
      tenant or environment request changes nothing. */
  function Complete(s: SessionState, c: Completion): (t: SessionState)
    ensures ResolvesUser(c) ==> t.userResolved
    ensures !ResolvesUser(c) ==> t.userResolved == s.userResolved && t.scopesFound == s.scopesFound
    ensures t.scopesFound <==>
      s.scopesFound || (c.TokenUser? && c.user.Some? && HasSubscribeScope(c.user.value))
    ensures t.tenantList == if c.TenantsLoaded? then Some(c.list) else s.tenantList
    ensures t.environments == if c.EnvironmentsLoaded? then c.environments else s.environments
    ensures Consistent(s) ==> Consistent(t)
  {
    match c
    case TenantsLoaded(list) => s.(tenantList := Some(list))
    case TenantsFailed => s
    case EnvironmentsLoaded(envs) => s.(environments := envs)
    case EnvironmentsFailed => s
    case TokenUser(user) => ResolveUser(s, user)
    case TokenFailed => ResolveUser(s, None)
  }

  /** The state after a sequence of completions, in the order they arrive. */
  function Run(s: SessionState, cs: seq<Completion>): SessionState
    decreases |cs|
  {
    if cs == [] then s else Run(Complete(s, cs[0]), cs[1..])
  }

  /** The screens the protected application chooses between. */
  datatype View =
    | Loading
    | TenantListing(tenants: seq<Tenant>)
    | Shell(isAuthenticated: bool, isUserFound: Option<User>)

  /** Authentication as render decides it: the scope was found on mount and a
      user is cached at render time. */
  predicate IsAuthenticated(s: SessionState, currentUser: Option<User>)
  {
    s.scopesFound && currentUser.Some?
  }

  /** The screen for a state, the settings context's tenant domain and the
      user cached at render time. `tenantDomain` is `None` exactly when it is
      `null`: the listing test is a strict comparison with `null`. Loading until both the user and the tenant
      list are resolved; then the tenant listing when the tenant does not
      exist, or when there are tenants, nobody is authenticated and no tenant
      is chosen; otherwise the application shell. */
  function Render(s: SessionState, tenantDomain: Option<string>, currentUser: Option<User>): (v: View)
    ensures !s.userResolved ==> v == Loading
    ensures v == Loading <==> !s.userResolved || s.tenantList == None
    ensures s.userResolved && s.tenantList.Some? && tenantDomain == Some(InvalidTenant) ==>
      v == TenantListing(s.tenantList.value)
    ensures v.TenantListing? <==>
      && s.userResolved
      && s.tenantList.Some?
      && (|| tenantDomain == Some(InvalidTenant)
          || (s.tenantList.value != [] && !IsAuthenticated(s, currentUser) && tenantDomain == None))
    ensures v.TenantListing? ==> Some(v.tenants) == s.tenantList
    ensures v.Shell? ==> v.isAuthenticated == IsAuthenticated(s, currentUser) && v.isUserFound == currentUser
  {
    if !s.userResolved then Loading
    else
      var isAuthenticated := IsAuthenticated(s, currentUser);
      if s.tenantList.None? then Loading
      else if tenantDomain == Some(InvalidTenant)
        || (|s.tenantList.value| > 0 && !isAuthenticated && tenantDomain == None) then
        TenantListing(s.tenantList.value)
      else
        Shell(isAuthenticated, currentUser)
  }

  /** Whatever order the completions arrive in, the scope is never recorded
      for an unresolved user. */
  lemma {:induction false} RunKeepsConsistent(s: SessionState, cs: seq<Completion>)
    requires Consistent(s)
    ensures Consistent(Run(s, cs))
    decreases |cs|
  {
    if cs != [] {
      RunKeepsConsistent(Complete(s, cs[0]), cs[1..]);
    }
  }

  /** No completion undoes a resolved user, a found scope or a loaded tenant list. */
  lemma {:induction false} RunIsMonotone(s: SessionState, cs: seq<Completion>)
    ensures s.userResolved ==> Run(s, cs).userResolved
    ensures s.scopesFound ==> Run(s, cs).scopesFound
    ensures s.tenantList.Some? ==> Run(s, cs).tenantList.Some?
    decreases |cs|
  {
    if cs != [] {
      RunIsMonotone(Complete(s, cs[0]), cs[1..]);
    }
  }

  /** Once any outcome of the token request has arrived, the user stays resolved. */
  lemma {:induction false} RunResolvesUser(s: SessionState, cs: seq<Completion>, i: nat)
    requires i < |cs| && ResolvesUser(cs[i])
    ensures Run(s, cs).userResolved
    decreases |cs|
  {
    if i == 0 {
      RunIsMonotone(Complete(s, cs[0]), cs[1..]);
    } else {
      RunResolvesUser(Complete(s, cs[0]), cs[1..], i - 1);
    }
  }

  /** Once the tenant list has loaded, it stays loaded. */
  lemma {:induction false} RunLoadsTenants(s: SessionState, cs: seq<Completion>, i: nat)
    requires i < |cs| && cs[i].TenantsLoaded?
    ensures Run(s, cs).tenantList.Some?
    decreases |cs|
  {
    if i == 0 {
      RunIsMonotone(Complete(s, cs[0]), cs[1..]);
    } else {
      RunLoadsTenants(Complete(s, cs[0]), cs[1..], i - 1);
    }
  }

  /** Until the token request settles, an unresolved user keeps the loading
      screen up, whatever else arrives and whatever the context holds. */
  lemma {:induction false} LoadingUntilUserResolves(
    s: SessionState, cs: seq<Completion>, tenantDomain: Option<string>, currentUser: Option<User>)
    requires !s.userResolved
    requires forall i :: 0 <= i < |cs| ==> !ResolvesUser(cs[i])
    ensures !Run(s, cs).userResolved
    ensures Render(Run(s, cs), tenantDomain, currentUser) == Loading
    decreases |cs|
  {
    if cs != [] {
      LoadingUntilUserResolves(Complete(s, cs[0]), cs[1..], tenantDomain, currentUser);
    }
  }

  /** A tenant list that never loads (its request failed) keeps the loading
      screen up for good. */
  lemma {:induction false} LoadingWithoutTenantList(
    s: SessionState, cs: seq<Completion>, tenantDomain: Option<string>, currentUser: Option<User>)
    requires s.tenantList == None
    requires forall i :: 0 <= i < |cs| ==> !cs[i].TenantsLoaded?
    ensures Run(s, cs).tenantList == None
    ensures Render(Run(s, cs), tenantDomain, currentUser) == Loading
    decreases |cs|
  {
    if cs != [] {
      LoadingWithoutTenantList(Complete(s, cs[0]), cs[1..], tenantDomain, currentUser);
    }
  }

  /** From mount on: once every request that decides the screen has
      succeeded or settled, in whatever order, the loading screen is gone. */
  lemma SettledMountIsNotLoading(
    tenant: Option<string>, cachedUser: Option<User>, cs: seq<Completion>,
    tenantDomain: Option<string>, currentUser: Option<User>)
    requires Mount(InitialState, tenant, cachedUser).requests.fetchTenants ==>
      exists i :: 0 <= i < |cs| && cs[i].TenantsLoaded?
    requires Mount(InitialState, tenant, cachedUser).requests.fetchUserFromToken ==>
      exists i :: 0 <= i < |cs| && ResolvesUser(cs[i])
    ensures Render(Run(Mount(InitialState, tenant, cachedUser).state, cs), tenantDomain, currentUser) != Loading
  {
    var m := Mount(InitialState, tenant, cachedUser);
    RunIsMonotone(m.state, cs);
    if m.requests.fetchTenants {
      var i :| 0 <= i < |cs| && cs[i].TenantsLoaded?;
      RunLoadsTenants(m.state, cs, i);
    }
    if m.requests.fetchUserFromToken {
      var i :| 0 <= i < |cs| && ResolvesUser(cs[i]);
      RunResolvesUser(m.state, cs, i);
    }
  }

  /** A change of the active environment asked of the environment utilities:
      `SetEnvironment(None)` is a call with an index outside the list. */
  datatype EnvironmentChange = Unchanged | SetEnvironment(environment: Option<Environment>)

  /** The protected application component: its state fields, updated by
      mounting and by one method per completion of the requests it issues. */
  class ProtectedApp {
    var userResolved: bool
    var scopesFound: bool
    var tenantList: Option<seq<Tenant>>
    var environments: seq<Environment>

    function State(): SessionState
      reads this
    {
      SessionState(userResolved, scopesFound, tenantList, environments)
    }

    ghost predicate Valid()
      reads this
    {
      Consistent(State())
    }

    constructor ()
      ensures Valid() && State() == InitialState
    {
      userResolved := false;
      scopesFound := false;
      tenantList := None;
      environments := [];
    }

    /** Records a known (or absent) user as resolved, with the scope when it holds it. */
    method SetUserResolved(user: Option<User>)
      requires Valid()
      modifies this
      ensures Valid() && State() == ResolveUser(old(State()), user)
    {
      if user.Some? {
        var hasViewScope := HasSubscribeScope(user.value);
        if hasViewScope {
          userResolved, scopesFound := true, true;
        } else {
          userResolved := true;
        }
      } else {
        userResolved := true;
      }
    }

    method ComponentDidMount(tenant: Option<string>, cachedUser: Option<User>) returns (requests: Requests)
      requires Valid()
      modifies this
      ensures Valid() && Mounted(State(), requests) == Mount(old(State()), tenant, cachedUser)
    {
      var setTenantDomain: Option<string> := None;
      var fetchTenants := false;
      if Truthy(tenant) {
        tenantList := Some([]);
        setTenantDomain := tenant;
      } else {
        fetchTenants := true;
      }
      var fetchUserFromToken := false;
      if cachedUser.Some? {
        SetUserResolved(cachedUser);
      } else {
        fetchUserFromToken := true;
      }
      requests := Requests(setTenantDomain, fetchTenants, true, fetchUserFromToken);
    }

    method TenantsLoaded(list: seq<Tenant>)
      requires Valid()
      modifies this
      ensures Valid() && State() == Complete(old(State()), Completion.TenantsLoaded(list))
    {
      tenantList := Some(list);
    }

    /** The failure is only logged; the list stays as it was. */
    method TenantsFailed()
      requires Valid()
      modifies this
      ensures Valid() && State() == Complete(old(State()), Completion.TenantsFailed)
    {
    }

    method EnvironmentsLoaded(envs: seq<Environment>)
      requires Valid()
      modifies this
      ensures Valid() && State() == Complete(old(State()), Completion.EnvironmentsLoaded(envs))
    {
      environments := envs;
    }

    /** The failure is only logged; the environments stay as they were. */
    method EnvironmentsFailed()
      requires Valid()
      modifies this
      ensures Valid() && State() == Complete(old(State()), Completion.EnvironmentsFailed)
    {
    }

    method UserFromTokenResolved(loggedUser: Option<User>)
      requires Valid()
      modifies this
      ensures Valid() && State() == Complete(old(State()), TokenUser(loggedUser))
    {
      SetUserResolved(loggedUser);
    }

    method UserFromTokenFailed()
      requires Valid()
      modifies this
      ensures Valid() && State() == Complete(old(State()), TokenFailed)
    {
      SetUserResolved(None);
    }

    /** Applies the `environment` query parameter. The parameter is returned
        in every case; the active environment is changed only when the
        parameter is present, differs from the current environment and the
        lookup does not answer -1, and then to the entry at the looked-up
        index. */
    method HandleEnvironmentQueryParam(
      environmentParam: Option<string>,
      currentEnvironment: Option<string>,
      getEnvironmentId: (seq<Environment>, string) -> int)
      returns (environmentName: Option<string>, change: EnvironmentChange)
      ensures environmentName == environmentParam
      ensures change != Unchanged <==>
        && Truthy(environmentParam)
        && currentEnvironment != environmentParam
        && getEnvironmentId(environments, environmentParam.value) != -1
      ensures change.SetEnvironment? ==>
        var id := getEnvironmentId(environments, environmentParam.value);
        change.environment == if 0 <= id < |environments| then Some(environments[id]) else None
    {
      environmentName := environmentParam;
      change := Unchanged;
      if !Truthy(environmentParam) || currentEnvironment == environmentParam {
        return;
      }
      var environmentId := getEnvironmentId(environments, environmentParam.value);
      if environmentId == -1 {
        return;
      }
      var environment := if 0 <= environmentId < |environments| then Some(environments[environmentId]) else None;
      change := SetEnvironment(environment);
    }
  }
}
