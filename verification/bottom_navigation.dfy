/**
 * The bottom navigation bar (src/components/bottom-navigation.tsx): the
 * fixed list of items each role sees, which of them is highlighted, and
 * where a click leads.
 */
module BottomNavigation {
  import opened App

  /** One button of the bar: the screen it opens and its caption (the icon is not modelled). */
  datatype NavItem = NavItem(id: Screen, caption: string)

  /** `getNavItemsForUserType`: the four items of each role, home dashboard first. */
  function NavItemsForUserType(t: UserType): (items: seq<NavItem>)
    ensures |items| == 4
    ensures items[0].id == DashboardForUserType(t)
  {
    match t
    case Auxiliar => [
      NavItem(DashboardAuxiliar, "Inicio"),
      NavItem(RegistroDatos, "Registros"),
      NavItem(HistorialPersonal, "Mi Historial"),
      NavItem(Login, "Perfil")]
    case Asistente => [
      NavItem(DashboardAsistente, "Dashboard"),
      NavItem(PantallaValidacion, "Validación"),
      NavItem(DashboardAsistente, "Territorio"),
      NavItem(ReportesAvanzados, "Reportes")]
    case Encargado => [
      NavItem(DashboardEncargado, "Dashboard"),
      NavItem(ReportesAvanzados, "Reportes"),
      NavItem(ConfiguracionMetas, "Configuración"),
      NavItem(DashboardEncargado, "Análisis")]
    case Coordinador => [
      NavItem(DashboardCoordinador, "Estratégico"),
      NavItem(DashboardCoordinador, "Comparativo"),
      NavItem(DashboardCoordinador, "Calidad"),
      NavItem(ConfiguracionMetas, "Configuración")]
  }

  /** An item is highlighted when it names the screen being shown. */
  predicate IsActive(item: NavItem, currentScreen: Screen)
  {
    currentScreen == item.id
  }

  /** Whether the bar of role `t` has an item leading to `s`. */
  predicate Offers(t: UserType, s: Screen)
  {
    exists i :: 0 <= i < 4 && NavItemsForUserType(t)[i].id == s
  }

  /** The indices of the highlighted items of role `t` while `currentScreen` is shown. */
  function ActiveIndices(t: UserType, currentScreen: Screen): set<nat>
  {
    set i: nat | i < 4 && IsActive(NavItemsForUserType(t)[i], currentScreen)
  }

  /** Items that share a screen light up together: both Territorio and Dashboard for the asistente. */
  lemma SharedIdsActiveTogether(t: UserType, i: nat, j: nat, currentScreen: Screen)
    requires i < 4 && j < 4
    requires NavItemsForUserType(t)[i].id == NavItemsForUserType(t)[j].id
    ensures i in ActiveIndices(t, currentScreen) <==> j in ActiveIndices(t, currentScreen)
  {
  }

  lemma AsistenteHomeHighlightsTwoItems()
    ensures ActiveIndices(Asistente, DashboardAsistente) == {0, 2}
  {
    var ix := ActiveIndices(Asistente, DashboardAsistente);
    forall i: nat ensures i in ix <==> i == 0 || i == 2 {
    }
  }

  /**
   * A click calls `onNavigate(item.id)`: afterwards the clicked item is
   * highlighted, and so is exactly every item of the bar leading to the
   * same screen.
   */
  lemma ClickNavigatesToItem(s: AppState, t: UserType, i: nat)
    requires i < 4
    ensures var item := NavItemsForUserType(t)[i];
      var r := Navigated(s, item.id);
      && i in ActiveIndices(t, r.currentScreen)
      && forall j: nat :: j in ActiveIndices(t, r.currentScreen) <==> j < 4 && NavItemsForUserType(t)[j].id == item.id
  {
  }

  /** Which roles can reach which role-specific screens from the bar. */
  lemma ScreenVisibilityByRole(t: UserType)
    ensures Offers(t, PantallaValidacion) <==> t == Asistente
    ensures Offers(t, RegistroDatos) <==> t == Auxiliar
    ensures Offers(t, ConfiguracionMetas) <==> t == Encargado || t == Coordinador
  {
    var items := NavItemsForUserType(t);
    match t
    case Auxiliar =>
      assert items[1].id == RegistroDatos;
    case Asistente =>
      assert items[1].id == PantallaValidacion;
    case Encargado =>
      assert items[2].id == ConfiguracionMetas;
    case Coordinador =>
      assert items[3].id == ConfiguracionMetas;
  }
}
