/**
 * The authentication context (src/contexts/AuthContext.tsx): the provider's state (token,
 * user, loading flag), the browser storage it writes, and the `useAuth` hook.
 */
module AuthContext {
  import opened Wrappers
  import opened Types
  import opened Http
  import AuthService
  import PetService

  const OutsideProviderMessage: string := "useAuth must be used within an AuthProvider"

  /** `useAuth`: the context value, or the error thrown when no provider is above the caller. */
  function UseAuth<C>(context: Option<C>): (r: Result<C, string>)
    ensures r.Success? <==> context.Some?
    ensures context.Some? ==> r.value == context.value
    ensures context.None? ==> r.error == OutsideProviderMessage
  {
    match context
    case Some(c) => Success(c)
    case None => Failure(OutsideProviderMessage)
  }

  /** `!!token`: a token that is present and not the empty string. */
  predicate Authenticated(token: Option<string>)
  {
    token.Some? && token.value != ""
  }

  /**
   * The provider. `storage` is the browser's localStorage, which the provider shares with
   * the services; `encodeUser` stands for `JSON.stringify` of a user.
   */
  class AuthProvider {
    var token: Option<string>
    var user: Option<User>
    var isLoading: bool
    var storage: Storage

    /** The first render: no token and no user, whatever the storage already holds. */
    constructor (initial: Storage)
      ensures token == None && user == None && isLoading && storage == initial
      ensures !IsAuthenticated()
    {
      token, user, isLoading, storage := None, None, true, initial;
    }

    /** `isAuthenticated`. */
    predicate IsAuthenticated()
      reads this
    {
      Authenticated(token)
    }

    /**
     * `login`, given the server's answer: on success the body's token becomes the context
     * token and is written to `authToken` (whatever the body's `status`); on failure the
     * error is rethrown and only the service's storage effects remain. Loading ends both ways.
     */
    method Login(resp: Response<LoginApiResponse>) returns (r: Result<LoginApiResponse, ApiError>)
      modifies this
      ensures r == AuthService.Login(old(storage), resp).result
      ensures r.Success? ==> (token == Some(r.value.token)
        && storage == AuthService.Login(old(storage), resp).storage[AuthTokenKey := r.value.token])
      ensures r.Failure? ==> token == old(token) && storage == AuthService.Login(old(storage), resp).storage
      ensures user == old(user) && !isLoading
    {
      isLoading := true;
      var c := AuthService.Login(storage, resp);
      storage := c.storage;
      r := c.result;
      if r.Success? {
        token := Some(r.value.token);
        storage := storage[AuthTokenKey := r.value.token];
      }
      isLoading := false;
    }

    /**
     * `register`, given the form and the server's answer: the form is sent as the split-name
     * registration request; on success the body's `auth_token`
     * becomes the context token and `authToken`, the body's user becomes the context user and
     * is stored, encoded, under `authUser`; on failure token and user stay as they were.
     */
    method Register(form: RegisterForm, resp: Response<RegisterApiResponse>, encodeUser: User -> string)
      returns (r: Result<RegisterApiResponse, ApiError>, request: RegisterApiRequest)
      modifies this
      ensures request == AuthService.ToRegisterRequest(form)
      ensures r == AuthService.Register(old(storage), resp).result
      ensures r.Success? ==> (token == Some(r.value.authToken) && user == Some(r.value.user)
        && storage == AuthService.Register(old(storage), resp).storage
             [AuthTokenKey := r.value.authToken][AuthUserKey := encodeUser(r.value.user)])
      ensures r.Failure? ==> (token == old(token) && user == old(user)
        && storage == AuthService.Register(old(storage), resp).storage)
      ensures !isLoading
    {
      isLoading := true;
      request := AuthService.ToRegisterRequest(form);
      var c := AuthService.Register(storage, resp);
      storage := c.storage;
      r := c.result;
      if r.Success? {
        token := Some(r.value.authToken);
        storage := storage[AuthTokenKey := r.value.authToken];
        storage := storage[AuthUserKey := encodeUser(r.value.user)];
        user := Some(r.value.user);
      }
      isLoading := false;
    }

    /** `logout`: forgets the token and `authToken`; the user and `authUser` are kept. */
    method Logout()
      modifies this
      ensures token == None && !IsAuthenticated()
      ensures storage == old(storage) - {AuthTokenKey}
      ensures user == old(user) && isLoading == old(isLoading)
      ensures AuthUserKey in old(storage) ==> AuthUserKey in storage && storage[AuthUserKey] == old(storage)[AuthUserKey]
    {
      token := None;
      storage := storage - {AuthTokenKey};
    }

    /** A service writes localStorage directly; the context's own state does not follow. */
    method ServiceWroteStorage(newStorage: Storage)
      modifies this`storage
      ensures storage == newStorage
    {
      storage := newStorage;
    }
  }

  /** A successful sign-in always authenticates when the returned token is not empty. */
  method SignInAuthenticates(p: AuthProvider, resp: Response<LoginApiResponse>)
    requires resp.Ok? && resp.body.token != ""
    modifies p
    ensures p.IsAuthenticated() && HasToken(p.storage)
  {
    var r := p.Login(resp);
  }

  /** Signing out after registering keeps the registered user and its stored copy. */
  method LogoutKeepsRegisteredUser(p: AuthProvider, form: RegisterForm, resp: Response<RegisterApiResponse>, encodeUser: User -> string)
    requires resp.Ok?
    modifies p
    ensures !p.IsAuthenticated() && !HasToken(p.storage)
    ensures p.user == Some(resp.body.user)
    ensures AuthUserKey in p.storage && p.storage[AuthUserKey] == encodeUser(resp.body.user)
  {
    var r, request := p.Register(form, resp, encodeUser);
    p.Logout();
  }

  /**
   * A 401 from the pet service removes the stored token, but the context keeps its own:
   * the visitor still counts as signed in while every later pet request fails for lack of a token.
   */
  method ExpiredSessionStillAuthenticated(p: AuthProvider)
    requires p.IsAuthenticated()
    modifies p
    ensures p.IsAuthenticated() && !HasToken(p.storage)
    ensures PetService.FetchFromApi<Pet>(p.storage, Ok(Pet("", "", "", "", "", "", "", "", "", false, ""))).result == Failure(NoToken)
  {
    var c := PetService.FetchFromApi<Pet>(p.storage, Status(401));
    p.ServiceWroteStorage(c.storage);
  }
}
