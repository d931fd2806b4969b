/**
 * Client runs that use only the contracts of the slices: an update of a
 * cached note, a login through the cookie slice, and a logout followed by
 * `checkAuth`.
 */
module Scenarios {
  import opened Api
  import opened NoteList
  import NotesSlice
  import TokenStore
  import CookieAuthSlice

  /** Updating note "42" while the cache holds notes "42" and "7" replaces the first in place. */
  method UpdateInPlace() {
    var first := Note("42", "T1", "body", "t0", "t0");
    var second := Note("7", "other", "", "t0", "t0");
    var edited := Note("42", "T2", "body", "t1", "t0");
    var s := new NotesSlice.State();
    s.FetchFulfilled([first, second]);
    s.UpdateFulfilled(edited);
    assert s.items == [edited, second];
    s.DeleteFulfilled("42");
    assert s.items == [second];
  }

  /**
   * A login fills the jar and authenticates the slice; the logout thunk
   * leaves the jar as it is, so the fulfilled logout signs out only until
   * the next `checkAuth`, which reads the stored token and signs back in.
   * The run takes the logout call as resolved; the API object the slice
   * calls has no `logout`, so as wired that call always throws.
   */
  method LoginLogoutCheckAuth() {
    var jar := new TokenStore.CookieJar(map[]);
    var s := new CookieAuthSlice.State(jar);
    assert !s.isAuthenticated && s.user == Null;

    var user := Obj(map["user_email" := Str("a@b.com")]);
    var response := AuthResponse(user, Str("access"), Str("refresh"));
    s.Reduce(CookieAuthSlice.LoginPending, jar);
    var before := jar.cookies;
    var a := CookieAuthSlice.LoginUser(jar, Resolved(response));
    s.Reduce(a, jar);
    assert s.isAuthenticated && s.user == user && s.error == Null;
    assert TokenStore.HasAccessToken(jar.cookies);

    a := CookieAuthSlice.LogoutUser(Resolved(Undefined));
    s.Reduce(a, jar);
    assert !s.isAuthenticated && s.user == Null;

    TokenStore.SessionUserReadsBack(before, response);
    s.Reduce(CookieAuthSlice.CheckAuth, jar);
    assert s.isAuthenticated && s.user == user;
  }

  /**
   * A login whose response carries neither tokens nor a user, as an HTTP
   * response object read for `access`, `refresh` and `user` does: the jar
   * stores the text "undefined" for each, so it counts as authenticated,
   * and `checkAuth` throws on the stored user and leaves the slice as the
   * login left it.
   */
  method LoginWithoutTokens() {
    var jar := new TokenStore.CookieJar(map[]);
    var s := new CookieAuthSlice.State(jar);
    var response := AuthResponse(Undefined, Undefined, Undefined);
    var a := CookieAuthSlice.LoginUser(jar, Resolved(response));
    s.Reduce(a, jar);
    assert s.isAuthenticated && s.user == Undefined;
    assert TokenStore.HasAccessToken(jar.cookies);
    assert TokenStore.StoredUser(jar.cookies) == None;

    s.Reduce(CookieAuthSlice.CheckAuth, jar);
    assert s.isAuthenticated && s.user == Undefined;
  }
}
