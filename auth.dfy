/** The mock authentication provider (src/hooks/use-auth.tsx): the signed-in user is always one of
  * the mock users, chosen by role and remembered in browser storage under `mockUserRole`. The
  * storage is modelled as an optional string field of the provider. */
module Auth {
  import opened Wrappers
  import opened Types
  import Seqs

  /** `MOCK_USERS.find(u => u.role === UserRole.NORMAL)!`. */
  function NormalUser(): (u: User)
    ensures u == MOCK_USERS[0] && u.role == Normal
  {
    FindUserByRole(MOCK_USERS, Normal).value
  }

  /** The mock user whose role's string value equals `stored`: a stored string is compared with the
    * enum values, which are themselves strings. */
  function FindUserByStoredRole(users: seq<User>, stored: string): (r: Option<User>)
    ensures r.Some? ==> r.value in users && RoleValue(r.value.role) == stored
    ensures r.None? ==> forall u :: u in users ==> RoleValue(u.role) != stored
  {
    Seqs.Find(users, (u: User) => RoleValue(u.role) == stored)
  }

  /** The user the provider's start-up effect restores: nothing or the empty string stored gives
    * the Normal user; a stored role value with a mock user gives that user; anything else gives
    * the Normal user. */
  function InitialUser(stored: Option<string>): (u: User)
    ensures u in MOCK_USERS
  {
    if stored.None? || stored.value == "" then NormalUser()
    else
      var found := FindUserByStoredRole(MOCK_USERS, stored.value);
      if found.Some? then found.value else NormalUser()
  }

  /** Restoring picks the user of role `r` exactly when `r`'s value was stored (for Admin and
    * Service), and the Normal user for everything else. */
  lemma InitialUserRole(stored: Option<string>, r: UserRole)
    requires r != Normal
    ensures InitialUser(stored).role == r <==> stored == Some(RoleValue(r))
    ensures InitialUser(stored).role == Normal <==> stored.None? || RoleOfValue(stored.value) !in {Some(Admin), Some(Service)}
  {
    if stored.Some? && stored.value != "" {
      var found := FindUserByStoredRole(MOCK_USERS, stored.value);
      if found.Some? {
        assert RoleOfValue(stored.value) == Some(found.value.role);
      } else {
        assert forall u :: u in MOCK_USERS ==> RoleValue(u.role) != stored.value;
        assert MOCK_USERS[1].role == Admin && MOCK_USERS[2].role == Service;
      }
    }
  }

  /** The user `loginAs(role)` signs in: the mock user with that role, or the Normal user if there
    * is none. */
  function LoginUser(role: UserRole): (u: User)
    ensures u in MOCK_USERS
    ensures u.role == role
  {
    var found := FindUserByRole(MOCK_USERS, role);
    if found.Some? then found.value else NormalUser()
  }

  /** A stored login survives a reload: restoring from what `loginAs` stored gives the same user. */
  lemma LoginSurvivesReload(role: UserRole)
    ensures InitialUser(Some(RoleValue(LoginUser(role).role))) == LoginUser(role)
  {
  }

  /** After `logout` (nothing stored) a reload restores the Normal user. */
  lemma LogoutSurvivesReload()
    ensures InitialUser(None) == NormalUser()
  {
  }

  /** The provider's state: the user and loading flag it publishes, and the stored role. */
  class AuthProvider {
    var user: Option<User>
    var loading: bool
    var storedRole: Option<string>

    /** A provider mounted over browser storage holding `stored`: no user yet, loading. */
    constructor(stored: Option<string>)
      ensures user == None && loading && storedRole == stored
    {
      user := None;
      loading := true;
      storedRole := stored;
    }

    /** The start-up effect: restore the user from storage and stop loading. */
    method Init()
      modifies this
      ensures user == Some(InitialUser(old(storedRole)))
      ensures !loading && storedRole == old(storedRole)
    {
      if storedRole.Some? && storedRole.value != "" {
        var found := FindUserByStoredRole(MOCK_USERS, storedRole.value);
        user := if found.Some? then found else Some(NormalUser());
      } else {
        user := Some(NormalUser());
      }
      loading := false;
    }

    /** `loginAs(role)`: sign in as the mock user with that role and store the role. */
    method LoginAs(role: UserRole)
      modifies this
      ensures user == Some(LoginUser(role))
      ensures storedRole == Some(RoleValue(role))
      ensures loading == old(loading)
    {
      var found := FindUserByRole(MOCK_USERS, role);
      if found.Some? {
        user := found;
        storedRole := Some(RoleValue(role));
      } else {
        user := Some(NormalUser());
        storedRole := Some(RoleValue(Normal));
      }
    }

    /** `logout`: back to the Normal user, with nothing stored. */
    method Logout()
      modifies this
      ensures user == Some(NormalUser()) && storedRole == None
      ensures loading == old(loading)
    {
      user := Some(NormalUser());
      storedRole := None;
    }
  }

  /** Signing in and then reloading the page (a new provider over the same storage) keeps the user. */
  method LoginThenReload(provider: AuthProvider, role: UserRole) returns (reloaded: AuthProvider)
    modifies provider
    ensures fresh(reloaded)
    ensures reloaded.user == provider.user == Some(LoginUser(role))
    ensures !reloaded.loading
  {
    provider.LoginAs(role);
    reloaded := new AuthProvider(provider.storedRole);
    reloaded.Init();
    LoginSurvivesReload(role);
  }

  /** What a component reads from the provider. */
  datatype AuthContext = AuthContext(user: Option<User>, loading: bool)

  /** `useAuth`: the context of the enclosing provider, or the error it throws outside one. */
  function UseAuth(context: Option<AuthContext>): (r: Result<AuthContext, string>)
    ensures r.Failure? <==> context.None?
    ensures r.Failure? ==> r.error == "useAuth must be used within an AuthProvider"
    ensures r.Success? ==> r.value == context.value
  {
    if context.None? then Failure("useAuth must be used within an AuthProvider") else Success(context.value)
  }
}
