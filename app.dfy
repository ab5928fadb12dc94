/** The client's route table, its `PrivateRoute` guard and `handleLogout`.
    The browser's `localStorage` is a string-to-string map. */
module App {
  import opened Records

  const LoginPath: string := "/login"
  const ChatPath: string := "/chat"

  const TokenKey: string := "token"
  const RoleKey: string := "role"
  const EmailKey: string := "email"

  /** What a guarded route shows. */
  datatype Outcome = RedirectTo(path: string) | RenderChildren

  /** A JavaScript string from storage is truthy when present and non-empty. */
  predicate Truthy(s: Option<string>) {
    s.Some? && s.value != ""
  }

  /** `PrivateRoute`: no token goes to the login page; an admin-only route
      with any role but "admin" (or none) goes to the chat page; everything
      else renders the page. Each outcome comes with the exact condition
      that produces it. */
  function PrivateRoute(token: Option<string>, role: Option<string>, adminOnly: bool): (r: Outcome)
    ensures r == RedirectTo(LoginPath) <==> !Truthy(token)
    ensures r == RedirectTo(ChatPath) <==> Truthy(token) && adminOnly && role != Some(AdminRole)
    ensures r == RenderChildren <==> Truthy(token) && (!adminOnly || role == Some(AdminRole))
  {
    if !Truthy(token) then RedirectTo(LoginPath)
    else if adminOnly && role != Some(AdminRole) then RedirectTo(ChatPath)
    else RenderChildren
  }

  function Lookup(items: map<string, string>, key: string): Option<string> {
    if key in items then Some(items[key]) else None
  }

  /** The browser's `localStorage`. */
  class BrowserStorage {
    var items: map<string, string>

    constructor (items: map<string, string>)
      ensures this.items == items
    {
      this.items := items;
    }

    /** `localStorage.removeItem(key)` */
    method RemoveItem(key: string)
      modifies this
      ensures items == old(items) - {key}
    {
      items := items - {key};
    }

    /** `handleLogout`: removes the token, the role and the e-mail, keeps
      every other entry, and navigates to the login page. */
    method HandleLogout() returns (target: string)
      modifies this
      ensures items == old(items) - {TokenKey, RoleKey, EmailKey}
      ensures target == LoginPath
    {
      RemoveItem(TokenKey);
      RemoveItem(RoleKey);
      RemoveItem(EmailKey);
      target := LoginPath;
    }
  }

  /** After logout every guarded route, admin-only or not, sends the
      visitor to the login page, whatever else storage holds. */
  lemma LoggedOutIsRedirected(items: map<string, string>, adminOnly: bool)
    ensures var after := items - {TokenKey, RoleKey, EmailKey};
      PrivateRoute(Lookup(after, TokenKey), Lookup(after, RoleKey), adminOnly) == RedirectTo(LoginPath)
  {
  }

  /** What a route of the table renders. */
  datatype Element = Redirect(to: string) | Page(name: string) | Guarded(name: string, adminOnly: bool)

  datatype Route = Route(path: string, element: Element)

  /** The route table of `App`. */
  const Routes: seq<Route> := [
    Route("/", Redirect(ChatPath)),
    Route(LoginPath, Page("Login")),
    Route("/register", Page("Register")),
    Route("/pricing", Page("Pricing")),
    Route(ChatPath, Guarded("Chat", false)),
    Route("/billing", Guarded("Billing", false)),
    Route("/profile", Guarded("Profile", false)),
    Route("/admin", Guarded("AdminDashboard", true)),
    Route("/admin/plans", Guarded("AdminPlans", true)),
    Route("/admin/payments", Guarded("AdminPayments", true))
  ]

  const AdminPrefix: string := "/admin"

  predicate IsAdminPath(path: string) {
    |AdminPrefix| <= |path| && path[..|AdminPrefix|] == AdminPrefix
  }

  lemma NotAdminPath(path: string)
    requires |path| < 2 || path[1] != AdminPrefix[1]
    ensures !IsAdminPath(path)
  {
    if |AdminPrefix| <= |path| {
      assert path[..|AdminPrefix|][1] == path[1];
    }
  }

  /** Every "/admin" route of the table is wrapped in an admin-only guard. */
  lemma AdminRoutesAreGuarded()
    ensures forall i :: 0 <= i < |Routes| && IsAdminPath(Routes[i].path) ==>
      Routes[i].element == Guarded(Routes[i].element.name, true)
  {
    NotAdminPath(Routes[0].path);
    NotAdminPath(Routes[1].path);
    NotAdminPath(Routes[2].path);
    NotAdminPath(Routes[3].path);
    NotAdminPath(Routes[4].path);
    NotAdminPath(Routes[5].path);
    NotAdminPath(Routes[6].path);
  }

  /** Hence no "/admin" page of the table is rendered for a visitor whose
      stored role is not "admin". */
  lemma AdminPagesNeedAdminRole(i: nat, token: Option<string>, role: Option<string>)
    requires i < |Routes| && IsAdminPath(Routes[i].path)
    requires role != Some(AdminRole)
    ensures Routes[i].element.Guarded?
    ensures PrivateRoute(token, role, Routes[i].element.adminOnly) != RenderChildren
  {
    AdminRoutesAreGuarded();
  }
}
