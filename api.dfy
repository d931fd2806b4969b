/**
 * What the Redux slices receive from the HTTP layer: JavaScript values with
 * their truthiness, the optional-chaining reads the thunks use on a thrown
 * error, the `||` fallback chains that pick a rejection value, and the body
 * the backend returns on login and registration.
 */
module Api {

  datatype Option<T> = None | Some(value: T)

  /** A JavaScript value as the slices see it (numbers are kept integral). */
  datatype JsValue =
    | Undefined
    | Null
    | Bool(b: bool)
    | Num(n: int)
    | Str(s: string)
    | Arr(elems: seq<JsValue>)
    | Obj(props: map<string, JsValue>)

  /** JavaScript truthiness: what `if (v)`, `!!v` and `v || w` test. */
  predicate Truthy(v: JsValue) {
    match v
    case Undefined => false
    case Null => false
    case Bool(b) => b
    case Num(n) => n != 0
    case Str(s) => s != ""
    case Arr(_) => true
    case Obj(_) => true
  }

  /** `a || b`: the left operand when it is truthy, otherwise the right one. */
  function Or(a: JsValue, b: JsValue): JsValue {
    if Truthy(a) then a else b
  }

  /** `v?.key`: a missing property, or a read through null or undefined, gives undefined. */
  function OptionalGet(v: JsValue, key: string): JsValue {
    match v
    case Obj(props) => if key in props then props[key] else Undefined
    case _ => Undefined
  }

  /**
   * What an awaited HTTP call throws: `response` is the body of the server's
   * answer (`error.response.data`) when there was one, `message` is the
   * JavaScript error message.
   */
  datatype HttpError = HttpError(response: Option<JsValue>, message: string)

  /** `error.response?.data` */
  function ResponseData(e: HttpError): JsValue {
    match e.response
    case None => Undefined
    case Some(data) => data
  }

  /** How the awaited call inside a thunk ended. */
  datatype Settled<T> = Resolved(value: T) | Thrown(error: HttpError)

  /** The body the backend sends on a successful login or registration. */
  datatype AuthResponse = AuthResponse(user: JsValue, access: JsValue, refresh: JsValue)

  /**
   * The reference meaning of a fallback chain `c0 || c1 || ... || fallback`:
   * the first candidate that is present (truthy), or the fallback when none is.
   */
  function FirstPresent(cs: seq<JsValue>, fallback: JsValue): (r: JsValue)
    ensures (exists i :: 0 <= i < |cs| && Truthy(cs[i]) && r == cs[i] &&
               forall j :: 0 <= j < i ==> !Truthy(cs[j]))
         || (r == fallback && forall j :: 0 <= j < |cs| ==> !Truthy(cs[j]))
  {
    if cs == [] then fallback
    else if Truthy(cs[0]) then cs[0]
    else
      var r := FirstPresent(cs[1..], fallback);
      assert forall j :: 1 <= j < |cs| ==> cs[j] == cs[1..][j - 1];
      r
  }

  /** A chain `c || rest` is `c` when it is present, otherwise the rest of the chain. */
  lemma FirstPresentCons(c: JsValue, cs: seq<JsValue>, fallback: JsValue)
    ensures FirstPresent([c] + cs, fallback) == Or(c, FirstPresent(cs, fallback))
  {
    assert ([c] + cs)[1..] == cs;
  }

  /**
   * `error.response?.data || fallback`, the rejection value of every thunk
   * that calls `rejectWithValue` with a single fallback.
   */
  function RejectValue(e: HttpError, fallback: JsValue): (r: JsValue)
    ensures r == FirstPresent([ResponseData(e)], fallback)
    ensures Truthy(fallback) ==> Truthy(r)
  {
    Or(ResponseData(e), fallback)
  }
}
