/**
 * The authentication provider: it restores a session from the stored token
 * at start-up, signs in and out, and admits only dispatchers (role 2).
 */
module AuthContext {
  import opened Wrappers

  const DispatcherRole := 2
  const AuthTokenKey := "authToken"
  const ActiveMenuKey := "activeMenu"
  const AccessDeniedMessage := "Access Denied: Only dispatchers are allowed."

  datatype Role = Role(roleId: Option<int>)

  /** A user record as the API returns it. `GET /user/me` carries the role id at
      the top (`role_id`); the login response nests it (`role.role_id`). */
  datatype User = User(username: string, roleId: Option<int>, role: Option<Role>)

  datatype LoginResponse = LoginResponse(token: Option<string>, user: Option<User>)

  /** An awaited remote call: it returns a value or throws. */
  datatype Remote<T> = Returned(value: T) | Threw

  /** The remote calls the provider makes, in order. */
  datatype AuthCall = GetUser | Login | Logout

  /** What `signIn` ends in: the user it returns, the "Access Denied" error it throws, or
      the login error it rethrows. */
  datatype SignInOutcome = SignedIn(user: User) | AccessDenied(message: string) | LoginThrew

  /** A stored token that is present and non-empty. */
  predicate HasToken(storage: map<string, string>) {
    AuthTokenKey in storage && storage[AuthTokenKey] != ""
  }

  /** The user a session restore keeps: the fetched user, when there is one and
      its `role_id` is 2; nobody otherwise (also when `getUser` throws). */
  function RestoredUser(fetched: Remote<Option<User>>): (u: Option<User>)
    ensures u.Some? ==> fetched == Returned(u) && u.value.roleId == Some(DispatcherRole)
    ensures u.None? <==> !(fetched.Returned? && fetched.value.Some? && fetched.value.value.roleId == Some(DispatcherRole))
  {
    match fetched
    case Returned(Some(user)) => if user.roleId == Some(DispatcherRole) then Some(user) else None
    case _ => None
  }

  /** What `signIn` makes of the login call: the user, when a token came back
      and the nested role id is 2; "Access Denied" otherwise; the login error
      itself when the call throws. */
  function SignInResult(response: Remote<LoginResponse>): (r: SignInOutcome)
    ensures r.SignedIn? <==>
              && response.Returned?
              && response.value.token.Some? && response.value.token.value != ""
              && response.value.user.Some? && response.value.user.value.role.Some?
              && response.value.user.value.role.value.roleId == Some(DispatcherRole)
    ensures r.SignedIn? ==> response.value.user == Some(r.user) && r.user.role.value.roleId == Some(DispatcherRole)
    ensures r == LoginThrew <==> response.Threw?
    ensures r.AccessDenied? ==> r.message == AccessDeniedMessage
  {
    match response
    case Threw => LoginThrew
    case Returned(resp) =>
      if resp.token.Some? && resp.token.value != "" && resp.user.Some? && resp.user.value.role.Some? &&
         resp.user.value.role.value.roleId == Some(DispatcherRole)
      then SignedIn(resp.user.value)
      else AccessDenied(AccessDeniedMessage)
  }

  /** The storage after `login`: `login` stores the returned token under `authToken`
      before `signIn` looks at the role, so the write happens whatever the role. A call
      that throws writes nothing (the request failed before the write). */
  function StorageAfterLogin(storage: map<string, string>, response: Remote<LoginResponse>): map<string, string> {
    if response.Returned? && response.value.token.Some? then storage[AuthTokenKey := response.value.token.value]
    else storage
  }

  /** A sign-in refused for its role still leaves the token it received in storage, so the
      next start-up restore finds a token and asks for the user again. */
  lemma DeniedSignInKeepsToken(storage: map<string, string>, response: Remote<LoginResponse>)
    requires SignInResult(response).AccessDenied?
    requires response.value.token.Some? && response.value.token.value != ""
    ensures HasToken(StorageAfterLogin(storage, response))
    ensures StorageAfterLogin(storage, response)[AuthTokenKey] == response.value.token.value
  {
  }


  class AuthProvider {
    var user: Option<User>
    var loading: bool
    /** The device's key-value storage. */
    var storage: map<string, string>
    var calls: seq<AuthCall>

    /** The provider's initial state: nobody signed in, still loading. */
    constructor (stored: map<string, string>)
      ensures user == None && loading && storage == stored && calls == []
    {
      user, loading, storage, calls := None, true, stored, [];
    }

    /** `loadStorageData` at start-up, given what `getUser` would do. */
    method LoadStorageData(fetched: Remote<Option<User>>)
      modifies this
      ensures !loading
      // no token: no request, nothing changes but loading
      ensures !HasToken(old(storage)) ==> user == old(user) && storage == old(storage) && calls == old(calls)
      ensures HasToken(old(storage)) ==> calls == old(calls) + [GetUser] && user == RestoredUser(fetched)
      // an accepted user clears the remembered menu; a rejected one loses the token
      ensures HasToken(old(storage)) && RestoredUser(fetched).Some? ==> storage == old(storage) - {ActiveMenuKey}
      ensures HasToken(old(storage)) && fetched.Returned? && RestoredUser(fetched).None? ==>
                storage == old(storage) - {AuthTokenKey}
      ensures HasToken(old(storage)) && fetched.Threw? ==> storage == old(storage)
    {
      if HasToken(storage) {
        calls := calls + [GetUser];
        match fetched {
          case Threw =>
            user := None;  // catch
          case Returned(userData) =>
            if userData.Some? && userData.value.roleId == Some(DispatcherRole) {
              user := userData;
              storage := storage - {ActiveMenuKey};
            } else {
              storage := storage - {AuthTokenKey};
              user := None;
            }
        }
      }
      loading := false;  // finally
    }

    /** `signIn`, given what `login` would do. */
    method SignIn(response: Remote<LoginResponse>) returns (r: SignInOutcome)
      modifies this
      ensures r == SignInResult(response)
      ensures calls == old(calls) + [Login]
      ensures r.SignedIn? ==> user == Some(r.user)
      ensures !r.SignedIn? ==> user == old(user)
      ensures storage == StorageAfterLogin(old(storage), response)
      ensures loading == old(loading)
    {
      calls := calls + [Login];
      if response.Returned? && response.value.token.Some? {
        storage := storage[AuthTokenKey := response.value.token.value];  // inside login
      }
      r := SignInResult(response);
      if r.SignedIn? {
        user := Some(r.user);
      }
    }

    /** `signOut`: `logout` clears all of storage after its request, and only then is the
        user cleared; a failed request changes neither. */
    method SignOut(logoutOk: bool)
      modifies this
      ensures calls == old(calls) + [Logout]
      ensures logoutOk ==> user == None && storage == map[]
      ensures !logoutOk ==> user == old(user) && storage == old(storage)
      ensures loading == old(loading)
    {
      calls := calls + [Logout];
      if logoutOk {
        storage := map[];  // inside logout
        user := None;
      }
    }
  }

  /** A successful sign-out followed by a start-up restore: storage is empty, so the
      restore makes no request and nobody is signed in. */
  method SignOutThenRestore(p: AuthProvider, fetched: Remote<Option<User>>)
    modifies p
    ensures p.calls == old(p.calls) + [Logout]
    ensures p.user == None && p.storage == map[] && !p.loading
  {
    p.SignOut(true);
    p.LoadStorageData(fetched);
  }

  /** A sign-in refused for its role, followed by a start-up restore: the token `login`
      stored is still there, so the restore asks the server for the user again. */
  method DeniedSignInThenRestore(p: AuthProvider, response: Remote<LoginResponse>, fetched: Remote<Option<User>>)
    requires SignInResult(response).AccessDenied?
    requires response.value.token.Some? && response.value.token.value != ""
    modifies p
    ensures p.calls == old(p.calls) + [Login, GetUser]
    ensures p.user == RestoredUser(fetched) && !p.loading
  {
    var r := p.SignIn(response);
    DeniedSignInKeepsToken(old(p.storage), response);
    p.LoadStorageData(fetched);
  }
}
