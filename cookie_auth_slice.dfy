/**
 * The auth slice of `store`: the signed-in user, whether the session is
 * authenticated, a loading flag and an error value. Its login and register
 * thunks write the session into the token store before they return, its
 * initial state and `checkAuth` read the store back, and its logout thunk
 * leaves the store alone.
 */
module CookieAuthSlice {
  import opened Api
  import opened TokenStore

  const LOGIN_FAILED := "Login failed"
  const REGISTER_FAILED := "Registration failed"

  /** `{ message: text }` */
  function MessageObject(text: string): (v: JsValue)
    ensures Truthy(v)
    ensures OptionalGet(v, "message") == Str(text)
  {
    Obj(map["message" := Str(text)])
  }

  /** The actions this slice's reducer can receive; the logout thunk rejects without a payload. */
  datatype Action =
    | ClearError | CheckAuth
    | LoginPending | LoginFulfilled(response: AuthResponse) | LoginRejected(reason: JsValue)
    | RegisterPending | RegisterFulfilled(response: AuthResponse) | RegisterRejected(reason: JsValue)
    | LogoutPending | LogoutFulfilled | LogoutRejected
  {
    /** The action types the reducer has a case for. */
    predicate Handled() {
      !(LogoutPending? || LogoutRejected?)
    }
  }

  /** The login rejection value: the response body when present, otherwise `{ message: 'Login failed' }`. */
  function LoginRejection(e: HttpError): (r: JsValue)
    ensures r == FirstPresent([ResponseData(e)], MessageObject(LOGIN_FAILED))
    ensures Truthy(r)
  {
    RejectValue(e, MessageObject(LOGIN_FAILED))
  }

  /** The register rejection value: the response body when present, otherwise `{ message: 'Registration failed' }`. */
  function RegisterRejection(e: HttpError): (r: JsValue)
    ensures r == FirstPresent([ResponseData(e)], MessageObject(REGISTER_FAILED))
    ensures Truthy(r)
  {
    RejectValue(e, MessageObject(REGISTER_FAILED))
  }

  /**
   * `loginUser`: on success the jar holds the response's tokens and user
   * before the fulfilled action is returned; on failure the jar is untouched
   * and the action is rejected with a present reason.
   */
  method LoginUser(jar: CookieJar, outcome: Settled<AuthResponse>) returns (a: Action)
    modifies jar
    ensures outcome.Resolved? ==>
              a == LoginFulfilled(outcome.value) && jar.cookies == WithSession(old(jar.cookies), outcome.value)
    ensures outcome.Thrown? ==>
              a == LoginRejected(LoginRejection(outcome.error)) && jar.cookies == old(jar.cookies)
  {
    match outcome
    case Resolved(response) =>
      jar.SetTokens(response.access, response.refresh);
      jar.SetUser(response.user);
      a := LoginFulfilled(response);
    case Thrown(e) =>
      a := LoginRejected(LoginRejection(e));
  }

  /** `registerUser`: as `loginUser`, with its own action types and fallback message. */
  method RegisterUser(jar: CookieJar, outcome: Settled<AuthResponse>) returns (a: Action)
    modifies jar
    ensures outcome.Resolved? ==>
              a == RegisterFulfilled(outcome.value) && jar.cookies == WithSession(old(jar.cookies), outcome.value)
    ensures outcome.Thrown? ==>
              a == RegisterRejected(RegisterRejection(outcome.error)) && jar.cookies == old(jar.cookies)
  {
    match outcome
    case Resolved(response) =>
      jar.SetTokens(response.access, response.refresh);
      jar.SetUser(response.user);
      a := RegisterFulfilled(response);
    case Thrown(e) =>
      a := RegisterRejected(RegisterRejection(e));
  }

  /** `logoutUser`: fulfilled when the backend call succeeds, rejected otherwise; it takes no jar, so it clears nothing. */
  function LogoutUser(outcome: Settled<JsValue>): (a: Action)
    ensures outcome.Resolved? <==> a == LogoutFulfilled
    ensures outcome.Thrown? <==> a == LogoutRejected
  {
    match outcome
    case Resolved(_) => LogoutFulfilled
    case Thrown(_) => LogoutRejected
  }

  class State {
    var user: JsValue
    var isAuthenticated: bool
    var loading: bool
    var error: JsValue

    /**
     * The initial state reads the session back from the jar. It is built
     * when the module loads, so a stored user that `getUser` cannot parse
     * makes the module fail to load: the jar must hold a readable user.
     */
    constructor (jar: CookieJar)
      requires StoredUser(jar.cookies).Some?
      ensures user == StoredUser(jar.cookies).value && isAuthenticated == HasAccessToken(jar.cookies)
      ensures !loading && error == Null
    {
      user := StoredUser(jar.cookies).value;
      isAuthenticated := HasAccessToken(jar.cookies);
      loading := false;
      error := Null;
    }

    /** `clearError`: only the error changes. */
    method ClearError()
      modifies this`error
      ensures error == Null
    {
      error := Null;
    }

    /**
     * `checkAuth`: the user and the authentication are read back from the
     * jar. When `getUser` throws, the reducer throws before it assigns
     * anything, and the state stays as it was.
     */
    method CheckAuth(jar: CookieJar)
      modifies this`user, this`isAuthenticated
      ensures StoredUser(jar.cookies).Some? ==>
                user == StoredUser(jar.cookies).value && isAuthenticated == HasAccessToken(jar.cookies)
      ensures StoredUser(jar.cookies).None? ==> unchanged(this)
    {
      match StoredUser(jar.cookies)
      case Some(stored) =>
        user := stored;
        isAuthenticated := HasAccessToken(jar.cookies);
      case None =>
    }

    /** `loginUser.pending` and `registerUser.pending`: loading, error cleared; user and authentication kept. */
    method Pending()
      modifies this`loading, this`error
      ensures loading && error == Null
    {
      loading := true;
      error := Null;
    }

    /** `loginUser.fulfilled` and `registerUser.fulfilled`: authenticated as the response's user, error cleared. */
    method Fulfilled(payload: AuthResponse)
      modifies this`loading, this`isAuthenticated, this`user, this`error
      ensures !loading && isAuthenticated && user == payload.user && error == Null
    {
      loading := false;
      isAuthenticated := true;
      user := payload.user;
      error := Null;
    }

    /** `loginUser.rejected` and `registerUser.rejected`: the error becomes the payload; user and authentication kept. */
    method Rejected(payload: JsValue)
      modifies this`loading, this`error
      ensures !loading && error == payload
    {
      loading := false;
      error := payload;
    }

    /** `logoutUser.fulfilled`: signed out and error cleared; the loading flag is left as it was. */
    method LogoutFulfilled()
      modifies this`isAuthenticated, this`user, this`error
      ensures !isAuthenticated && user == Null && error == Null
    {
      isAuthenticated := false;
      user := Null;
      error := Null;
    }

    /**
     * The reducer, for `checkAuth` given the jar it reads: only the fulfilled
     * logout signs out; a pending or rejected logout changes nothing, and
     * neither does a `checkAuth` whose `getUser` throws.
     */
    method Reduce(a: Action, jar: CookieJar)
      modifies this
      ensures !a.Handled() ==> unchanged(this)
      ensures a.ClearError? ==>
                (user, isAuthenticated, loading, error) == (old(user), old(isAuthenticated), old(loading), Null)
      ensures a.CheckAuth? && StoredUser(jar.cookies).Some? ==>
                (user, isAuthenticated, loading, error) ==
                (StoredUser(jar.cookies).value, HasAccessToken(jar.cookies), old(loading), old(error))
      ensures a.CheckAuth? && StoredUser(jar.cookies).None? ==> unchanged(this)
      ensures a.LoginPending? || a.RegisterPending? ==>
                (user, isAuthenticated, loading, error) == (old(user), old(isAuthenticated), true, Null)
      ensures a.LoginFulfilled? || a.RegisterFulfilled? ==>
                (user, isAuthenticated, loading, error) == (a.response.user, true, false, Null)
      ensures a.LoginRejected? || a.RegisterRejected? ==>
                (user, isAuthenticated, loading, error) == (old(user), old(isAuthenticated), false, a.reason)
      ensures a.LogoutFulfilled? ==>
                (user, isAuthenticated, loading, error) == (Null, false, old(loading), Null)
    {
      match a
      case ClearError => ClearError();
      case CheckAuth => CheckAuth(jar);
      case LoginPending => Pending();
      case RegisterPending => Pending();
      case LoginFulfilled(response) => Fulfilled(response);
      case RegisterFulfilled(response) => Fulfilled(response);
      case LoginRejected(reason) => Rejected(reason);
      case RegisterRejected(reason) => Rejected(reason);
      case LogoutFulfilled => LogoutFulfilled();
      case _ =>
    }
  }
}
