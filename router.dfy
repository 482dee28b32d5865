/** The router: its table of named routes with their `meta` flags, and the
    `beforeEach` navigation guard that sends visitors to the login page, to
    the dashboard (`home`), or lets them through. */
module Router {
  import opened Remote
  import Auth

  /** A route's `meta`: an absent flag is false. */
  datatype Meta = Meta(requiresAuth: bool, requiresGuest: bool)

  /** The route names of the table (`'landing'`, `'home'`, `'expense-create'`, ...). */
  datatype RouteName =
    | Landing | Home | Statistics
    | Expenses | ExpenseCreate | ExpenseDetails | ExpenseEdit
    | Categories | CategoryCreate | CategoryDetails | CategoryEdit
    | Deposits | DepositCreate | DepositDetails | DepositEdit
    | Login | Register | Profile

  datatype Route = Route(path: string, name: RouteName, meta: Meta)

  /** The target of a navigation as the guard sees it (`to`); a path that
      matches no route has no name. */
  datatype Location = Location(name: Option<RouteName>, fullPath: string, meta: Meta)

  /** What the guard does with a navigation. */
  datatype Decision =
    | RedirectToLogin(redirect: string)  // next({ name: 'login', query: { redirect } })
    | RedirectToHome                     // next({ name: 'home' })
    | Proceed                            // next()

  const Open := Meta(false, false)
  const Private := Meta(true, false)
  const GuestOnly := Meta(false, true)

  const Routes: seq<Route> := [
    Route("/", Landing, Open),
    Route("/dashboard", Home, Private),
    Route("/statistics", Statistics, Private),
    Route("/expenses", Expenses, Private),
    Route("/expenses/create", ExpenseCreate, Private),
    Route("/expenses/:id", ExpenseDetails, Private),
    Route("/expenses/:id/edit", ExpenseEdit, Private),
    Route("/categories", Categories, Private),
    Route("/categories/create", CategoryCreate, Private),
    Route("/categories/:id", CategoryDetails, Private),
    Route("/categories/:id/edit", CategoryEdit, Private),
    Route("/deposits", Deposits, Private),
    Route("/deposits/create", DepositCreate, Private),
    Route("/deposits/:id", DepositDetails, Private),
    Route("/deposits/:id/edit", DepositEdit, Private),
    Route("/login", Login, GuestOnly),
    Route("/register", Register, GuestOnly),
    Route("/profile", Profile, Private)
  ]

  /** A navigation to route `r`, reached at `fullPath`. */
  function At(r: Route, fullPath: string): Location {
    Location(Some(r.name), fullPath, r.meta)
  }

  /** No route is both private and guest-only. */
  lemma NoRouteHasBothFlags()
    ensures forall i :: 0 <= i < |Routes| ==> !(Routes[i].meta.requiresAuth && Routes[i].meta.requiresGuest)
  {
  }

  /** Exactly `login` and `register` are guest-only. */
  lemma GuestRoutesAreLoginAndRegister()
    ensures forall i :: 0 <= i < |Routes| ==> (Routes[i].meta.requiresGuest <==> Routes[i].name in {Login, Register})
  {
  }

  /** Every route except `landing`, `login` and `register` needs a signed-in user. */
  lemma PrivateRoutesAreTheRest()
    ensures forall i :: 0 <= i < |Routes| ==> (Routes[i].meta.requiresAuth <==> Routes[i].name !in {Landing, Login, Register})
  {
  }

  /** Route names are unique, so a name picks out one route. */
  lemma RouteNamesAreUnique()
    ensures forall i, j :: 0 <= i < j < |Routes| ==> Routes[i].name != Routes[j].name
  {
  }

  /** The guard's decision once it knows whether the visitor is signed in. */
  function Decide(to: Location, authenticated: bool): (d: Decision)
    ensures d.RedirectToLogin? <==> to.meta.requiresAuth && !authenticated
    ensures d.RedirectToLogin? ==> d.redirect == to.fullPath
    ensures d.RedirectToHome? <==> authenticated && (to.meta.requiresGuest || to.name == Some(Landing))
    ensures d.Proceed? && authenticated ==> !to.meta.requiresGuest && to.name != Some(Landing)
    ensures d.Proceed? && !authenticated ==> !to.meta.requiresAuth
  {
    if to.meta.requiresAuth && !authenticated then RedirectToLogin(to.fullPath)
    else if to.meta.requiresGuest && authenticated then RedirectToHome
    else if to.name == Some(Landing) && authenticated then RedirectToHome
    else Proceed
  }

  /** Over the route table: a signed-in user is never let through to
      `login`, `register` or `landing`, and a signed-out visitor is never let
      through to a private route. */
  lemma {:induction false} GuardKeepsEachVisitorOnTheirSide(i: nat, fullPath: string, authenticated: bool)
    requires i < |Routes|
    requires Decide(At(Routes[i], fullPath), authenticated).Proceed?
    ensures authenticated ==> Routes[i].name !in {Landing, Login, Register}
    ensures !authenticated ==> Routes[i].name in {Landing, Login, Register}
  {
    GuestRoutesAreLoginAndRegister();
    PrivateRoutesAreTheRest();
  }

  /** `router.beforeEach`: when no user is loaded it first tries `fetchUser`
      (whose failures it swallows), then decides on the resulting session. */
  method BeforeEach(auth: Auth.AuthStore, to: Location, fetch: Outcome<Auth.User>) returns (d: Decision)
    modifies auth
    ensures d == Decide(to, auth.IsAuthenticated())
    ensures old(auth.user).None? ==> auth.trace == old(auth.trace) + [Auth.GetUser] && !auth.loading &&
                                      (auth.IsAuthenticated() <==> fetch.Ok?)
    ensures old(auth.user).None? && fetch.Ok? ==> auth.user == Some(fetch.value) && auth.error == None
    ensures old(auth.user).None? && fetch.Err? ==>
              auth.user == None && auth.error == Some(ServerText(fetch.failure, Auth.FetchUserFailed))
    ensures old(auth.user).Some? ==> auth.trace == old(auth.trace) && auth.user == old(auth.user) &&
                                      auth.error == old(auth.error) && auth.loading == old(auth.loading)
  {
    if auth.user.None? {
      var _ := auth.FetchUser(fetch);
    }
    d := Decide(to, auth.IsAuthenticated());
  }
}
