/**
 * The application shell (src/App.tsx): the logged-in user, the current
 * screen, and the three handlers that replace that state.
 */
module App {
  import opened Base

  /** The four roles a user may have. */
  datatype UserType = Auxiliar | Asistente | Encargado | Coordinador

  /** Every screen the shell can show. */
  datatype Screen =
    | Login
    | DashboardAuxiliar
    | RegistroDatos
    | DashboardAsistente
    | PantallaValidacion
    | DashboardEncargado
    | ReportesAvanzados
    | DashboardCoordinador
    | ConfiguracionMetas
    | HistorialPersonal

  datatype User = User(
    id: string,
    name: string,
    userType: UserType,
    community: Option<string>,
    territory: Option<string>)

  datatype AppState = AppState(currentScreen: Screen, user: Option<User>, isAuthenticated: bool)

  /** The events the shell reacts to. */
  datatype Event = NavigateTo(screen: Screen) | LoginAs(u: User) | LogOut

  /** The home dashboard of each role. */
  function DashboardForUserType(t: UserType): (s: Screen)
    ensures HomeOwner(s) == Some(t)
  {
    match t
    case Auxiliar => DashboardAuxiliar
    case Asistente => DashboardAsistente
    case Encargado => DashboardEncargado
    case Coordinador => DashboardCoordinador
  }

  /** Whose home dashboard a screen is, if anyone's. */
  function HomeOwner(s: Screen): Option<UserType>
  {
    match s
    case DashboardAuxiliar => Some(Auxiliar)
    case DashboardAsistente => Some(Asistente)
    case DashboardEncargado => Some(Encargado)
    case DashboardCoordinador => Some(Coordinador)
    case _ => None
  }

  /** No two roles share a home dashboard, and no role's home is the login screen. */
  lemma DashboardForUserTypeInjective(a: UserType, b: UserType)
    ensures DashboardForUserType(a) == DashboardForUserType(b) ==> a == b
    ensures DashboardForUserType(a) != Login
  {
    assert HomeOwner(DashboardForUserType(a)) == Some(a);
    assert HomeOwner(DashboardForUserType(b)) == Some(b);
  }

  /** `isAuthenticated` holds exactly when a user is stored. */
  ghost predicate Consistent(s: AppState)
  {
    s.isAuthenticated <==> s.user.Some?
  }

  function Initial(): (s: AppState)
    ensures Consistent(s) && !s.isAuthenticated
  {
    AppState(Login, None, false)
  }

  /** `navigateToScreen`: only the screen changes. */
  function Navigated(s: AppState, screen: Screen): (r: AppState)
    ensures r.currentScreen == screen
    ensures r.user == s.user && r.isAuthenticated == s.isAuthenticated
  {
    s.(currentScreen := screen)
  }

  /** `loginUser`: store the user and open that role's dashboard. */
  function LoggedIn(u: User): (r: AppState)
    ensures Consistent(r) && r.isAuthenticated && r.user == Some(u)
    ensures HomeOwner(r.currentScreen) == Some(u.userType)
  {
    AppState(DashboardForUserType(u.userType), Some(u), true)
  }

  /** `logout`: back to the initial state, from any state. */
  function LoggedOut(s: AppState): (r: AppState)
    ensures r == Initial()
  {
    AppState(Login, None, false)
  }

  function Step(s: AppState, e: Event): AppState
  {
    match e
    case NavigateTo(screen) => Navigated(s, screen)
    case LoginAs(u) => LoggedIn(u)
    case LogOut => LoggedOut(s)
  }

  /** The state after handling the events in order. */
  function Run(s: AppState, es: seq<Event>): AppState
    decreases |es|
  {
    if es == [] then s else Run(Step(s, es[0]), es[1..])
  }

  lemma StepPreservesConsistent(s: AppState, e: Event)
    requires Consistent(s)
    ensures Consistent(Step(s, e))
  {
  }

  /** Every state reachable from the initial one keeps `isAuthenticated <==> user != null`. */
  lemma {:induction false} RunPreservesConsistent(s: AppState, es: seq<Event>)
    requires Consistent(s)
    ensures Consistent(Run(s, es))
    decreases |es|
  {
    if es != [] {
      StepPreservesConsistent(s, es[0]);
      RunPreservesConsistent(Step(s, es[0]), es[1..]);
    }
  }

  lemma ReachableConsistent(es: seq<Event>)
    ensures Consistent(Run(Initial(), es))
  {
    RunPreservesConsistent(Initial(), es);
  }

  /** Logging out twice is the same as logging out once. */
  lemma LogoutIdempotent(s: AppState)
    ensures LoggedOut(LoggedOut(s)) == LoggedOut(s)
  {
  }

  /** Being on the login screen does not mean being logged out: navigating there keeps the user. */
  lemma LoginScreenKeepsUser(u: User)
    ensures var s := Navigated(LoggedIn(u), Login);
      s.currentScreen == Login && s.isAuthenticated && s.user == Some(u)
  {
  }

  /** The React state holder of the `App` component. */
  class Component {
    var currentScreen: Screen
    var user: Option<User>
    var isAuthenticated: bool

    function State(): AppState
      reads this
    {
      AppState(currentScreen, user, isAuthenticated)
    }

    constructor ()
      ensures State() == Initial()
    {
      currentScreen, user, isAuthenticated := Login, None, false;
    }

    method NavigateToScreen(screen: Screen)
      modifies this
      ensures State() == Navigated(old(State()), screen)
    {
      currentScreen := screen;
    }

    method LoginUser(u: User)
      modifies this
      ensures State() == LoggedIn(u)
    {
      currentScreen, user, isAuthenticated := DashboardForUserType(u.userType), Some(u), true;
    }

    method Logout()
      modifies this
      ensures State() == LoggedOut(old(State()))
    {
      currentScreen, user, isAuthenticated := Login, None, false;
    }
  }
}
