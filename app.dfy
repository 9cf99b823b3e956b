/**
 * The client's top-level route table: what is shown for the auth context's
 * `loading` flag and token and the current path.
 */
module App {
  import opened Wrappers

  datatype View = LoginView | RegisterView | TodosView

  /** A loading screen, a page, a `<Navigate>` redirect, or nothing when no route matches. */
  datatype Screen = LoadingScreen | Render(view: View) | Redirect(to: string) | NoMatch

  /**
   * While loading only the loading screen appears. Afterwards `/` sends a
   * signed-in user to `/todos` and anyone else to `/login`; `/login` and
   * `/register` render their forms without a token and redirect to `/todos`
   * with one; `/todos` renders the list with a token and redirects to
   * `/login` without one. The list page is never rendered without a token and
   * the forms never with one.
   */
  function Route(loading: bool, token: Option<string>, path: string): (s: Screen)
    ensures loading <==> s == LoadingScreen
    ensures !loading && path == "/" ==> s == Redirect(if Truthy(token) then "/todos" else "/login")
    ensures !loading && Truthy(token) && (path == "/login" || path == "/register") ==> s == Redirect("/todos")
    ensures !loading && !Truthy(token) && path == "/login" ==> s == Render(LoginView)
    ensures !loading && !Truthy(token) && path == "/register" ==> s == Render(RegisterView)
    ensures !loading && path == "/todos" ==> s == if Truthy(token) then Render(TodosView) else Redirect("/login")
    ensures s.Render? ==> (s.view == TodosView <==> Truthy(token))
    ensures s.Redirect? ==> s.to == "/todos" || s.to == "/login"
    ensures s == NoMatch <==> !loading && path != "/" && path != "/login" && path != "/register" && path != "/todos"
  {
    if loading then LoadingScreen
    else if path == "/" then (if Truthy(token) then Redirect("/todos") else Redirect("/login"))
    else if path == "/login" then (if Truthy(token) then Redirect("/todos") else Render(LoginView))
    else if path == "/register" then (if Truthy(token) then Redirect("/todos") else Render(RegisterView))
    else if path == "/todos" then (if Truthy(token) then Render(TodosView) else Redirect("/login"))
    else NoMatch
  }

  /** Following a redirect always lands on a page within one more step: no redirect loops. */
  lemma RedirectsSettle(token: Option<string>, path: string)
    requires Route(false, token, path).Redirect?
    ensures Route(false, token, Route(false, token, path).to).Render?
  {
  }
}
