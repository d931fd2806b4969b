/**
 * The auth slice of `store/slices`: the signed-in user, the access token, a
 * loading flag and an error value, driven by the login and signup thunks and
 * by the synchronous `logout` and `clearError` actions.
 */
module AuthSlice {
  import opened Api

  const LOGIN_FAILED := "Login failed"
  const SIGNUP_FAILED := "Registration failed from authSlice"

  /** The actions this slice's reducer can receive. */
  datatype Action =
    | Logout | ClearError
    | LoginPending | LoginFulfilled(response: AuthResponse) | LoginRejected(reason: JsValue)
    | SignupPending | SignupFulfilled(response: AuthResponse) | SignupRejected(reason: JsValue)

  /** `loginUser`'s rejection value: the response body when present, otherwise the fixed message. */
  function LoginRejection(e: HttpError): (r: JsValue)
    ensures r == FirstPresent([ResponseData(e)], Str(LOGIN_FAILED))
    ensures Truthy(r)
  {
    RejectValue(e, Str(LOGIN_FAILED))
  }

  /**
   * `signupUser`'s rejection value, the chain
   * `error.response?.data?.error || error.response?.data || error.message || default`:
   * the first present of the backend's `error` field, the whole body and the
   * JavaScript message, otherwise the fixed message.
   */
  function SignupRejection(e: HttpError): (r: JsValue)
    ensures r == FirstPresent([OptionalGet(ResponseData(e), "error"), ResponseData(e), Str(e.message)],
                              Str(SIGNUP_FAILED))
    ensures Truthy(r)
  {
    FirstPresentCons(Str(e.message), [], Str(SIGNUP_FAILED));
    FirstPresentCons(ResponseData(e), [Str(e.message)], Str(SIGNUP_FAILED));
    FirstPresentCons(OptionalGet(ResponseData(e), "error"), [ResponseData(e), Str(e.message)], Str(SIGNUP_FAILED));
    Or(OptionalGet(ResponseData(e), "error"),
       Or(ResponseData(e),
          Or(Str(e.message), Str(SIGNUP_FAILED))))
  }

  /** `loginUser`: fulfilled with the response body, or rejected with a present reason. */
  function LoginUser(outcome: Settled<AuthResponse>): (a: Action)
    ensures outcome.Resolved? <==> a.LoginFulfilled?
    ensures outcome.Resolved? ==> a.response == outcome.value
    ensures outcome.Thrown? ==> a == LoginRejected(LoginRejection(outcome.error))
  {
    match outcome
    case Resolved(response) => LoginFulfilled(response)
    case Thrown(e) => LoginRejected(LoginRejection(e))
  }

  /** `signupUser`: fulfilled with the response body, or rejected with a present reason. */
  function SignupUser(outcome: Settled<AuthResponse>): (a: Action)
    ensures outcome.Resolved? <==> a.SignupFulfilled?
    ensures outcome.Resolved? ==> a.response == outcome.value
    ensures outcome.Thrown? ==> a == SignupRejected(SignupRejection(outcome.error))
  {
    match outcome
    case Resolved(response) => SignupFulfilled(response)
    case Thrown(e) => SignupRejected(SignupRejection(e))
  }

  class State {
    var user: JsValue
    var token: JsValue
    var isLoading: bool
    var error: JsValue

    /** The initial state: nobody signed in, no token, not loading, no error. */
    constructor ()
      ensures user == Null && token == Null && !isLoading && error == Null
    {
      user, token, isLoading, error := Null, Null, false, Null;
    }

    /** `logout`: user, token and error are cleared; the loading flag is left as it was. */
    method Logout()
      modifies this`user, this`token, this`error
      ensures user == Null && token == Null && error == Null
    {
      user := Null;
      token := Null;
      error := Null;
    }

    /** `clearError`: only the error changes. */
    method ClearError()
      modifies this`error
      ensures error == Null
    {
      error := Null;
    }

    /** `loginUser.pending` and `signupUser.pending`: loading, error cleared; user and token kept. */
    method Pending()
      modifies this`isLoading, this`error
      ensures isLoading && error == Null
    {
      isLoading := true;
      error := Null;
    }

    /**
     * `loginUser.fulfilled` and `signupUser.fulfilled`: the user and the
     * access token come from the response; the error is not touched.
     */
    method Fulfilled(payload: AuthResponse)
      modifies this`isLoading, this`user, this`token
      ensures !isLoading && user == payload.user && token == payload.access
    {
      isLoading := false;
      user := payload.user;
      token := payload.access;
    }

    /** `loginUser.rejected` and `signupUser.rejected`: the error becomes the payload; user and token kept. */
    method Rejected(payload: JsValue)
      modifies this`isLoading, this`error
      ensures !isLoading && error == payload
    {
      isLoading := false;
      error := payload;
    }

    /** The reducer: login and signup share their three cases. */
    method Reduce(a: Action)
      modifies this
      ensures a.Logout? ==> (user, token, isLoading, error) == (Null, Null, old(isLoading), Null)
      ensures a.ClearError? ==> (user, token, isLoading, error) == (old(user), old(token), old(isLoading), Null)
      ensures a.LoginPending? || a.SignupPending? ==>
                (user, token, isLoading, error) == (old(user), old(token), true, Null)
      ensures a.LoginFulfilled? || a.SignupFulfilled? ==>
                (user, token, isLoading, error) == (a.response.user, a.response.access, false, old(error))
      ensures a.LoginRejected? || a.SignupRejected? ==>
                (user, token, isLoading, error) == (old(user), old(token), false, a.reason)
    {
      match a
      case Logout => Logout();
      case ClearError => ClearError();
      case LoginPending => Pending();
      case SignupPending => Pending();
      case LoginFulfilled(response) => Fulfilled(response);
      case SignupFulfilled(response) => Fulfilled(response);
      case LoginRejected(reason) => Rejected(reason);
      case SignupRejected(reason) => Rejected(reason);
    }
  }
}
