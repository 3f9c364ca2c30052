/** The authentication gate: the redirect decision, `login`, `logout`, the loading gate
    and the `useAuth` guard. The token store is a map and navigation is a list of the
    paths pushed to the router. */
module Auth {
  import opened Wrappers

  const TokenKey := "token"
  const LoginPath := "/login"
  const DashboardPath := "/dashboard"
  const MissingProviderMessage := "useAuth must be used within an AuthProvider"

  /** `!!token`: a stored token counts only when it is present and not empty. */
  predicate HasToken(token: Option<string>) {
    token.Some? && token.value != ""
  }

  /** Where the check sends the user from `pathname`, if anywhere. */
  function RedirectTarget(token: Option<string>, pathname: string): (r: Option<string>)
    ensures r == Some(LoginPath) <==> !HasToken(token) && pathname != LoginPath
    ensures r == Some(DashboardPath) <==> HasToken(token) && pathname == LoginPath
    ensures r.None? <==> (HasToken(token) <==> pathname != LoginPath)
  {
    if !HasToken(token) && pathname != LoginPath then Some(LoginPath)
    else if HasToken(token) && pathname == LoginPath then Some(DashboardPath)
    else None
  }

  /** The rule never loops: at the page it sends the user to, with the same token, it stays. */
  lemma RedirectIsFinal(token: Option<string>, pathname: string)
    ensures RedirectTarget(token, pathname).Some? ==>
      RedirectTarget(token, RedirectTarget(token, pathname).value).None?
  {
  }

  /** A redirect always leads somewhere else than the current page. */
  lemma RedirectLeaves(token: Option<string>, pathname: string)
    ensures RedirectTarget(token, pathname).Some? ==> RedirectTarget(token, pathname).value != pathname
  {
  }

  /** What the context hands to `useAuth` callers (`login` and `logout` are the methods below). */
  datatype AuthContext = AuthContext(isAuthenticated: bool)

  /** `useAuth`. */
  function UseAuth(context: Option<AuthContext>): (r: Result<AuthContext, string>)
    ensures r.Failure? <==> context.None?
    ensures r.Failure? ==> r.error == MissingProviderMessage
    ensures r.Success? ==> r.value == context.value
  {
    RequireContext(context, MissingProviderMessage)
  }

  /** The navigation a check at `pathname` adds to the router's history. */
  function Pushes(target: Option<string>): (r: seq<string>)
    ensures |r| <= 1
    ensures r == [] <==> target.None?
    ensures target.Some? ==> r == [target.value]
  {
    match target
    case None => []
    case Some(path) => [path]
  }

  /** The state of `AuthProvider`, the token store and the router's history. */
  class AuthProvider {
    var isAuthenticated: bool
    var isLoading: bool
    var storage: map<string, string>
    var navigations: seq<string>

    constructor (storage: map<string, string>)
      ensures !isAuthenticated && isLoading
      ensures this.storage == storage && navigations == []
      ensures !RendersChildren()
    {
      isAuthenticated := false;
      isLoading := true;
      this.storage := storage;
      navigations := [];
    }

    /** The effect that runs on mount and on every path change. */
    method CheckAuth(pathname: string)
      modifies this`isAuthenticated, this`isLoading, this`navigations
      ensures isAuthenticated == HasToken(Lookup(storage, TokenKey))
      ensures !isLoading && RendersChildren()
      ensures navigations == old(navigations) + Pushes(RedirectTarget(Lookup(storage, TokenKey), pathname))
    {
      var token := Lookup(storage, TokenKey);
      isAuthenticated := token.Some? && token.value != "";
      isLoading := false;
      if !(token.Some? && token.value != "") && pathname != LoginPath {
        navigations := navigations + [LoginPath];
      } else if token.Some? && token.value != "" && pathname == LoginPath {
        navigations := navigations + [DashboardPath];
      }
    }

    /** `login`: store the token, mark the user signed in, go to the dashboard. */
    method Login(token: string)
      modifies this`storage, this`isAuthenticated, this`navigations
      ensures storage == old(storage)[TokenKey := token]
      ensures isAuthenticated
      ensures navigations == old(navigations) + [DashboardPath]
    {
      storage := storage[TokenKey := token];
      isAuthenticated := true;
      navigations := navigations + [DashboardPath];
    }

    /** `logout`: drop the token, mark the user signed out, go to the login page. */
    method Logout()
      modifies this`storage, this`isAuthenticated, this`navigations
      ensures storage == old(storage) - {TokenKey}
      ensures !isAuthenticated
      ensures navigations == old(navigations) + [LoginPath]
    {
      storage := storage - {TokenKey};
      isAuthenticated := false;
      navigations := navigations + [LoginPath];
    }

    /** The children are rendered only once the first check has run. */
    predicate RendersChildren()
      reads this
    {
      !isLoading
    }
  }

  /** After `login` with a non-empty token the check at the dashboard stays there; after
      `login("")` the check does not accept the empty token and sends the user back. */
  method LoginThenCheck(storage: map<string, string>, token: string)
  {
    var auth := new AuthProvider(storage);
    auth.Login(token);
    auth.CheckAuth(DashboardPath);
    assert auth.isAuthenticated <==> token != "";
    assert token != "" ==> auth.navigations == [DashboardPath];
    assert token == "" ==> auth.navigations == [DashboardPath, LoginPath];
    auth.Logout();
    auth.CheckAuth(LoginPath);
    assert !auth.isAuthenticated;
    assert auth.navigations[|auth.navigations| - 1] == LoginPath;
  }
}
