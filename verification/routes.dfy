/**
 * src/App.tsx: `AppRoutes`, the loading and sign-in gate, the dispatch of a signed-in
 * user's role to a dashboard, and the two routes "/" and "*".
 *
 * A `<Navigate>` element is a `Redirect` screen; following redirects is bounded by an
 * explicit number of steps.
 */
module Routes {
  import opened Wrappers
  import opened Types

  datatype Board = UserBoard | CaregiverBoard | TherapistBoard

  datatype Screen = Spinner | AuthScreen | Dashboard(board: Board) | Redirect(to: string)

  /** Each role has its own dashboard. */
  function BoardFor(r: UserRole): (b: Board)
    ensures r == EndUser <==> b == UserBoard
    ensures r == Caregiver <==> b == CaregiverBoard
    ensures r == Therapist <==> b == TherapistBoard
  {
    match r
    case EndUser => UserBoard
    case Caregiver => CaregiverBoard
    case Therapist => TherapistBoard
  }

  /** `getDashboard` as written: any other stored role navigates to "/auth". */
  function GetDashboardAsWritten(role: string): (sc: Screen)
    ensures ParseRole(role).Some? ==> sc == Dashboard(BoardFor(ParseRole(role).value))
    ensures ParseRole(role).None? ==> sc == Redirect("/auth")
  {
    match ParseRole(role)
    case Some(r) => Dashboard(BoardFor(r))
    case None => Redirect("/auth")
  }

  /**
   * `AppRoutes` as written: the spinner while loading, whatever else holds; the auth page
   * when nobody is signed in, whatever the path; then "/" shows the role's dashboard and
   * every other path, "/auth" included, navigates to "/".
   */
  function RouteAsWritten(loading: bool, user: Option<User>, path: string): (sc: Screen)
    ensures loading ==> sc == Spinner
    ensures !loading && user.None? ==> sc == AuthScreen
    ensures !loading && user.Some? && path != "/" ==> sc == Redirect("/")
    ensures !loading && user.Some? && path == "/" ==> sc == GetDashboardAsWritten(user.value.role)
  {
    if loading then Spinner
    else if user.None? then AuthScreen
    else if path == "/" then GetDashboardAsWritten(user.value.role)
    else Redirect("/")
  }

  /** The screen reached after following at most `fuel` redirects as written. */
  function FollowAsWritten(loading: bool, user: Option<User>, path: string, fuel: nat): Screen
    decreases fuel
  {
    match RouteAsWritten(loading, user, path)
    case Redirect(to) => if fuel == 0 then Redirect(to) else FollowAsWritten(loading, user, to, fuel - 1)
    case sc => sc
  }

  /**
   * The discrepancy: a signed-in user whose stored role is none of the three bounces
   * between "/" and "/auth" for ever, because no route renders the auth page for a
   * signed-in user. However many redirects are followed, no page is reached.
   */
  lemma {:induction false} UnknownRoleLoopsAsWritten(user: User, path: string, fuel: nat)
    requires ParseRole(user.role).None?
    ensures FollowAsWritten(false, Some(user), path, fuel).Redirect?
    decreases fuel
  {
    if fuel > 0 {
      var next := if path == "/" then "/auth" else "/";
      UnknownRoleLoopsAsWritten(user, next, fuel - 1);
    }
  }

  /** The intended `getDashboard`: any other role gets the auth page itself. */
  function GetDashboard(role: string): (sc: Screen)
    ensures ParseRole(role).Some? ==> sc == Dashboard(BoardFor(ParseRole(role).value))
    ensures ParseRole(role).None? ==> sc == AuthScreen
  {
    match ParseRole(role)
    case Some(r) => Dashboard(BoardFor(r))
    case None => AuthScreen
  }

  /** `AppRoutes` with the intended `getDashboard`. */
  function Route(loading: bool, user: Option<User>, path: string): (sc: Screen)
    ensures loading ==> sc == Spinner
    ensures !loading && user.None? ==> sc == AuthScreen
    ensures !loading && user.Some? && path != "/" ==> sc == Redirect("/")
    ensures !loading && user.Some? && path == "/" ==> sc == GetDashboard(user.value.role)
  {
    if loading then Spinner
    else if user.None? then AuthScreen
    else if path == "/" then GetDashboard(user.value.role)
    else Redirect("/")
  }

  function Follow(loading: bool, user: Option<User>, path: string, fuel: nat): Screen
    decreases fuel
  {
    match Route(loading, user, path)
    case Redirect(to) => if fuel == 0 then Redirect(to) else Follow(loading, user, to, fuel - 1)
    case sc => sc
  }

  /** Only "/" is a page: every redirect goes there, and "/" itself never redirects. */
  lemma RedirectsOnlyToRoot(loading: bool, user: Option<User>, path: string)
    ensures Route(loading, user, path).Redirect? ==> Route(loading, user, path).to == "/"
    ensures !Route(loading, user, "/").Redirect?
  {
  }

  /**
   * With the intended dispatch every path settles after at most one redirect, on the
   * spinner, the auth page, or the dashboard of the user's role.
   */
  lemma RouteSettles(loading: bool, user: Option<User>, path: string, fuel: nat)
    requires fuel >= 1
    ensures !Follow(loading, user, path, fuel).Redirect?
    ensures !loading && user.Some? && ParseRole(user.value.role).Some? ==>
      Follow(loading, user, path, fuel) == Dashboard(BoardFor(ParseRole(user.value.role).value))
  {
  }

  /** The intended dispatch agrees with the written one on every role of the union. */
  lemma KnownRolesUnchanged(loading: bool, user: Option<User>, path: string)
    requires user.Some? ==> ParseRole(user.value.role).Some?
    ensures Route(loading, user, path) == RouteAsWritten(loading, user, path)
  {
  }
}
