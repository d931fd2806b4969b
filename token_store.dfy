/**
 * The browser-side token store as the cookie auth slice uses it: a jar of
 * named cookies holding the access token, the refresh token and the user.
 * A cookie holds text. `setTokens` writes the text form (`String(v)`) of
 * whatever value it is given, and `setUser` writes the JSON text of the
 * user, which `getUser` parses back.
 */
module TokenStore {
  import opened Api

  const ACCESS_TOKEN_KEY := "access_token"
  const REFRESH_TOKEN_KEY := "refresh_token"
  const USER_KEY := "user"

  /**
   * The text of one cookie: plain text, or the JSON text of a value, which
   * is represented by the value it encodes. JSON text is never empty.
   */
  datatype Cookie = Text(s: string) | Json(v: JsValue)

  // ---------------------------------------------------------------------
  // JavaScript's conversions of a value to cookie text and back
  // ---------------------------------------------------------------------

  function DigitChar(d: nat): char
    requires d < 10
  {
    "0123456789"[d]
  }

  /** The decimal digits of a natural number, most significant first. */
  function DigitsText(n: nat): (r: string)
    ensures r != []
    ensures forall i :: 0 <= i < |r| ==> '0' <= r[i] <= '9'
    decreases n
  {
    if n < 10 then [DigitChar(n)] else DigitsText(n / 10) + [DigitChar(n % 10)]
  }

  /** `String(n)` for an integral number. */
  function NumberText(n: int): (r: string)
    ensures r != []
    ensures (r[0] == '-') <==> n < 0
  {
    if n < 0 then "-" + DigitsText(-n) else DigitsText(n)
  }

  /** `parts.join(",")` */
  function Join(parts: seq<string>): string {
    if parts == [] then ""
    else if |parts| == 1 then parts[0]
    else parts[0] + "," + Join(parts[1..])
  }

  /**
   * `String(v)`, the text js-cookie stores for `v` (it encodes that text on
   * write and decodes it on read). Only a string keeps its own text; every
   * value that is neither a string nor an array has non-empty text, so
   * `undefined`, `null`, `false` and `0` all become present text.
   */
  function CookieText(v: JsValue): (r: string)
    ensures v.Str? ==> r == v.s
    ensures !v.Str? && !v.Arr? ==> r != ""
    ensures v == Arr([]) ==> r == ""
    decreases v
  {
    match v
    case Undefined => "undefined"
    case Null => "null"
    case Bool(b) => if b then "true" else "false"
    case Num(n) => NumberText(n)
    case Str(s) => s
    case Arr(elems) =>
      // an array's text joins its elements' texts; null and undefined give ""
      Join(seq(|elems|, i requires 0 <= i < |elems| =>
             if elems[i] == Undefined || elems[i] == Null then "" else CookieText(elems[i])))
    case Obj(_) => "[object Object]"
  }

  /** A value with no `undefined` anywhere inside it. */
  predicate JsonSafe(v: JsValue)
    decreases v
  {
    match v
    case Undefined => false
    case Arr(elems) => forall i :: 0 <= i < |elems| ==> JsonSafe(elems[i])
    case Obj(props) => forall k :: k in props ==> JsonSafe(props[k])
    case _ => true
  }

  /**
   * `JSON.parse(JSON.stringify(v))` for a value that is not `undefined`:
   * an `undefined` array element comes back as `null` and an `undefined`
   * property is dropped.
   */
  function JsonRoundTrip(v: JsValue): (r: JsValue)
    decreases v
  {
    match v
    case Arr(elems) =>
      Arr(seq(|elems|, i requires 0 <= i < |elems| =>
            if elems[i] == Undefined then Null else JsonRoundTrip(elems[i])))
    case Obj(props) =>
      Obj(map k | k in props && props[k] != Undefined :: JsonRoundTrip(props[k]))
    case _ => v
  }

  /** A value without `undefined` inside survives the JSON round trip unchanged. */
  lemma {:induction false} JsonRoundTripKeepsSafe(v: JsValue)
    requires JsonSafe(v)
    ensures JsonRoundTrip(v) == v
    decreases v
  {
    match v
    case Arr(elems) =>
      forall i | 0 <= i < |elems| ensures JsonRoundTrip(elems[i]) == elems[i] {
        JsonRoundTripKeepsSafe(elems[i]);
      }
      assert JsonRoundTrip(v).elems == elems;
    case Obj(props) =>
      forall k | k in props ensures JsonRoundTrip(props[k]) == props[k] {
        JsonRoundTripKeepsSafe(props[k]);
      }
      assert JsonRoundTrip(v).props == props;
    case _ =>
  }

  /** What comes back from the JSON round trip of a defined value has no `undefined` inside. */
  lemma {:induction false} JsonRoundTripIsSafe(v: JsValue)
    requires v != Undefined
    ensures JsonSafe(JsonRoundTrip(v))
    decreases v
  {
    match v
    case Arr(elems) =>
      var r := JsonRoundTrip(v);
      forall i | 0 <= i < |elems| ensures JsonSafe(r.elems[i]) {
        if elems[i] != Undefined {
          JsonRoundTripIsSafe(elems[i]);
        }
      }
    case Obj(props) =>
      var r := JsonRoundTrip(v);
      forall k | k in r.props ensures JsonSafe(r.props[k]) {
        JsonRoundTripIsSafe(props[k]);
      }
    case _ =>
  }

  /** Storing a user that was itself read back stores the same user again. */
  lemma JsonRoundTripIdempotent(v: JsValue)
    requires v != Undefined
    ensures JsonRoundTrip(JsonRoundTrip(v)) == JsonRoundTrip(v)
  {
    JsonRoundTripIsSafe(v);
    JsonRoundTripKeepsSafe(JsonRoundTrip(v));
  }

  /**
   * The cookie `setUser` writes: the JSON text of the user. `JSON.stringify`
   * of `undefined` is `undefined` itself, which is stored as the text
   * "undefined".
   */
  function UserCookie(user: JsValue): (c: Cookie)
    ensures user == Undefined <==> c == Text("undefined")
    ensures user != Undefined ==> c == Json(user)
  {
    if user == Undefined then Text(CookieText(Undefined)) else Json(user)
  }

  // ---------------------------------------------------------------------
  // Reading the jar
  // ---------------------------------------------------------------------

  /** `Cookies.get(key)`: the stored cookie, or none (`undefined`). */
  function Get(cookies: map<string, Cookie>, key: string): Option<Cookie> {
    if key in cookies then Some(cookies[key]) else None
  }

  /** A cookie is truthy unless it is empty text. */
  predicate Present(c: Cookie) {
    c.Json? || c.s != ""
  }

  /**
   * `getUser`: null when no user cookie is stored or it is empty; otherwise
   * `JSON.parse` of its text. `None` means that parse throws, as it does on
   * the text "undefined"; plain text is read as such a failure, since the
   * only plain text `setUser` writes is "undefined".
   */
  function StoredUser(cookies: map<string, Cookie>): (r: Option<JsValue>)
    ensures USER_KEY !in cookies ==> r == Some(Null)
    ensures USER_KEY in cookies && cookies[USER_KEY].Json? ==>
              r == Some(JsonRoundTrip(cookies[USER_KEY].v))
    ensures USER_KEY in cookies && cookies[USER_KEY] == Text("") ==> r == Some(Null)
    ensures USER_KEY in cookies && cookies[USER_KEY] == Text("undefined") ==> r == None
    ensures r == None ==> USER_KEY in cookies && cookies[USER_KEY].Text? && cookies[USER_KEY].s != ""
  {
    match Get(cookies, USER_KEY)
    case None => Some(Null)
    case Some(Json(v)) => Some(JsonRoundTrip(v))
    case Some(Text(s)) => if s == "" then Some(Null) else None
  }

  /**
   * `isAuthenticated`, that is `!!getAccessToken()`: true exactly when an
   * access-token cookie is stored and its text is not empty.
   */
  function HasAccessToken(cookies: map<string, Cookie>): (r: bool)
    ensures r <==> ACCESS_TOKEN_KEY in cookies && Present(cookies[ACCESS_TOKEN_KEY])
  {
    match Get(cookies, ACCESS_TOKEN_KEY)
    case None => false
    case Some(c) => Present(c)
  }

  /**
   * The jar after `setTokens(access, refresh)` and then `setUser(user)` with
   * a login or registration response. The tokens are stored as their text,
   * so the jar is authenticated unless the access token's text is empty;
   * the user reads back through the JSON round trip, and a missing
   * (`undefined`) user makes `getUser` throw. Every other cookie is kept.
   */
  function WithSession(cookies: map<string, Cookie>, response: AuthResponse): (r: map<string, Cookie>)
    ensures Get(r, ACCESS_TOKEN_KEY) == Some(Text(CookieText(response.access)))
    ensures Get(r, REFRESH_TOKEN_KEY) == Some(Text(CookieText(response.refresh)))
    ensures HasAccessToken(r) <==> CookieText(response.access) != ""
    ensures response.user != Undefined ==> StoredUser(r) == Some(JsonRoundTrip(response.user))
    ensures response.user == Undefined ==> StoredUser(r) == None
    ensures r.Keys == cookies.Keys + {ACCESS_TOKEN_KEY, REFRESH_TOKEN_KEY, USER_KEY}
    ensures forall k :: k in cookies && k !in {ACCESS_TOKEN_KEY, REFRESH_TOKEN_KEY, USER_KEY} ==>
              r[k] == cookies[k]
  {
    cookies[ACCESS_TOKEN_KEY := Text(CookieText(response.access))]
           [REFRESH_TOKEN_KEY := Text(CookieText(response.refresh))]
           [USER_KEY := UserCookie(response.user)]
  }

  /**
   * A response whose access token is missing or is any non-string,
   * non-array value still leaves the jar authenticated: the token's text
   * ("undefined", "null", "false", "0", ...) is not empty.
   */
  lemma NonStringTokenAuthenticates(cookies: map<string, Cookie>, response: AuthResponse)
    requires !response.access.Str? && !response.access.Arr?
    ensures HasAccessToken(WithSession(cookies, response))
  {
  }

  /** A response with a JSON-safe user reads back exactly that user. */
  lemma SessionUserReadsBack(cookies: map<string, Cookie>, response: AuthResponse)
    requires JsonSafe(response.user)
    ensures StoredUser(WithSession(cookies, response)) == Some(response.user)
  {
    JsonRoundTripKeepsSafe(response.user);
  }

  class CookieJar {
    var cookies: map<string, Cookie>

    constructor (initial: map<string, Cookie>)
      ensures cookies == initial
    {
      cookies := initial;
    }

    /** `setTokens`: stores the text of both tokens under their names; nothing else changes. */
    method SetTokens(access: JsValue, refresh: JsValue)
      modifies this
      ensures cookies == old(cookies)[ACCESS_TOKEN_KEY := Text(CookieText(access))]
                                     [REFRESH_TOKEN_KEY := Text(CookieText(refresh))]
    {
      cookies := cookies[ACCESS_TOKEN_KEY := Text(CookieText(access))]
                        [REFRESH_TOKEN_KEY := Text(CookieText(refresh))];
    }

    /** `setUser`: stores the user's JSON text; nothing else changes. */
    method SetUser(user: JsValue)
      modifies this
      ensures cookies == old(cookies)[USER_KEY := UserCookie(user)]
    {
      cookies := cookies[USER_KEY := UserCookie(user)];
    }
  }
}
