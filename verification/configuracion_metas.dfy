/**
 * The goal configuration screen (src/components/configuracion-metas.tsx):
 * three pieces of state (yearly goals per contraceptive method, population
 * and goal per community, and the general alert settings), each edited
 * field by field, plus the annual total and the screen the back arrow
 * returns to.
 */
module ConfiguracionMetas {
  import opened Base
  import opened JsObject
  import App

  /** The two editable fields of a community. */
  datatype Campo = PoblacionMEF | Meta

  function CampoKey(c: Campo): (k: string)
    ensures k == "poblacionMEF" || k == "meta"
  {
    match c
    case PoblacionMEF => "poblacionMEF"
    case Meta => "meta"
  }

  datatype ConfiguracionGeneral = ConfiguracionGeneral(
    alertasCumplimiento: bool,
    notificacionesSync: bool,
    umbralCritico: int,
    umbralAlerta: int)

  function InitialMetasPorMetodo(): Obj<int>
  {
    [Entry("inyecciones", 850), Entry("orales", 420), Entry("dispositivos", 320),
     Entry("barrera", 180), Entry("naturales", 90), Entry("definitivos", 240)]
  }

  /** One community's record `{ poblacionMEF, meta }`. */
  function Comunidad(poblacionMEF: int, meta: int): Obj<int>
  {
    [Entry("poblacionMEF", poblacionMEF), Entry("meta", meta)]
  }

  function InitialMetasPorComunidad(): Obj<Obj<int>>
  {
    [Entry("San Pedro Necta", Comunidad(1200, 350)),
     Entry("Todos Santos", Comunidad(980, 280)),
     Entry("Santa Bárbara", Comunidad(750, 220)),
     Entry("La Democracia", Comunidad(650, 190))]
  }

  function InitialConfiguracionGeneral(): ConfiguracionGeneral
  {
    ConfiguracionGeneral(true, true, 50, 75)
  }

  /**
   * `parseInt(text) || 0`, given what `parseInt` produced (`None` for NaN):
   * NaN and 0 both give 0, every other number, negative ones included, is kept.
   */
  function OrZero(parsed: Option<int>): (r: int)
    ensures r == 0 <==> parsed == None || parsed == Some(0)
    ensures parsed.Some? ==> r == parsed.value
  {
    match parsed
    case None => 0
    case Some(n) => if n != 0 then n else 0
  }

  /**
   * `updateMetaPorComunidad`: `{ ...prev, [comunidad]: { ...prev[comunidad], [campo]: valor } }`.
   * Spreading an absent community spreads `undefined`, which contributes no fields.
   */
  function MetaPorComunidadUpdated(o: Obj<Obj<int>>, comunidad: string, campo: Campo, valor: int): (r: Obj<Obj<int>>)
    ensures Keys(r) == if comunidad in Keys(o) then Keys(o) else Keys(o) + [comunidad]
  {
    PutKeys(o, comunidad, Put(GetOr(o, comunidad, []), CampoKey(campo), valor));
    Put(o, comunidad, Put(GetOr(o, comunidad, []), CampoKey(campo), valor))
  }

  /**
   * The edited field of the edited community reads back as the new value;
   * its other field and every other community are as before.
   */
  lemma MetaPorComunidadFrame(o: Obj<Obj<int>>, comunidad: string, campo: Campo, valor: int)
    ensures var r := MetaPorComunidadUpdated(o, comunidad, campo, valor);
      Get(GetOr(r, comunidad, []), CampoKey(campo)) == Some(valor)
    ensures var r := MetaPorComunidadUpdated(o, comunidad, campo, valor);
      forall otro :: otro != campo ==>
        Get(GetOr(r, comunidad, []), CampoKey(otro)) == Get(GetOr(o, comunidad, []), CampoKey(otro))
    ensures var r := MetaPorComunidadUpdated(o, comunidad, campo, valor);
      forall c :: c != comunidad ==> Get(r, c) == Get(o, c)
  {
    var inner := Put(GetOr(o, comunidad, []), CampoKey(campo), valor);
    PutGet(o, comunidad, inner);
    PutGet(GetOr(o, comunidad, []), CampoKey(campo), valor);
    forall otro | otro != campo
      ensures Get(inner, CampoKey(otro)) == Get(GetOr(o, comunidad, []), CampoKey(otro))
    {
      PutOther(GetOr(o, comunidad, []), CampoKey(campo), valor, CampoKey(otro));
    }
    forall c | c != comunidad
      ensures Get(Put(o, comunidad, inner), c) == Get(o, c)
    {
      PutOther(o, comunidad, inner, c);
    }
  }

  /** Editing a community the object lacks creates it with that single field. */
  lemma MetaPorComunidadAbsent(o: Obj<Obj<int>>, comunidad: string, campo: Campo, valor: int)
    requires comunidad !in Keys(o)
    ensures MetaPorComunidadUpdated(o, comunidad, campo, valor)
         == o + [Entry(comunidad, [Entry(CampoKey(campo), valor)])]
  {
    PutAbsentAppends(o, comunidad, [Entry(CampoKey(campo), valor)]);
  }

  /** The method goals start at 2100 in total, the figure the change log reports. */
  lemma InitialTotalMetaAnual()
    ensures Sum(InitialMetasPorMetodo()) == 2100
    ensures Keys(InitialMetasPorMetodo())
         == ["inyecciones", "orales", "dispositivos", "barrera", "naturales", "definitivos"]
  {
  }

  /** `getReturnScreen`: the coordinador's dashboard for a coordinador, the encargado's otherwise. */
  function ReturnScreen(user: Option<App.User>): (s: App.Screen)
    ensures s == App.DashboardCoordinador <==> user.Some? && user.value.userType == App.Coordinador
    ensures s != App.DashboardCoordinador ==> s == App.DashboardEncargado
  {
    if user.Some? && user.value.userType == App.Coordinador then App.DashboardCoordinador
    else App.DashboardEncargado
  }

  /** The role handed to the bottom bar: `user?.type || 'encargado'`. */
  function NavUserType(user: Option<App.User>): (t: App.UserType)
    ensures user.Some? ==> t == user.value.userType
    ensures user.None? ==> t == App.Encargado
  {
    match user
    case Some(u) => u.userType
    case None => App.Encargado
  }

  /**
   * The back arrow leads to the home dashboard of the bar's role exactly
   * for encargado and coordinador; any other role is sent to the
   * encargado's dashboard.
   */
  lemma ReturnScreenIsHomeOnlyForManagers(user: Option<App.User>)
    ensures ReturnScreen(user) == App.DashboardForUserType(NavUserType(user))
        <==> NavUserType(user) == App.Encargado || NavUserType(user) == App.Coordinador
  {
    App.DashboardForUserTypeInjective(NavUserType(user), App.Encargado);
    App.DashboardForUserTypeInjective(NavUserType(user), App.Coordinador);
  }

  /** The community map and every community in it have distinct keys. */
  ghost predicate ComunidadesWellFormed(o: Obj<Obj<int>>)
  {
    UniqueKeys(o) && forall e :: e in o ==> UniqueKeys(e.value)
  }

  lemma MetaPorComunidadKeepsWellFormed(o: Obj<Obj<int>>, comunidad: string, campo: Campo, valor: int)
    requires ComunidadesWellFormed(o)
    ensures ComunidadesWellFormed(MetaPorComunidadUpdated(o, comunidad, campo, valor))
  {
    var prev := GetOr(o, comunidad, []);
    assert UniqueKeys(prev);
    var inner := Put(prev, CampoKey(campo), valor);
    PutUniqueKeys(prev, CampoKey(campo), valor);
    PutUniqueKeys(o, comunidad, inner);
    PutEntries(o, comunidad, inner);
  }

  lemma ComunidadUniqueKeys(poblacionMEF: int, meta: int)
    ensures UniqueKeys(Comunidad(poblacionMEF, meta))
  {
  }

  /** The seeded method goals have distinct keys. */
  lemma InitialMetasPorMetodoUnique()
    ensures UniqueKeys(InitialMetasPorMetodo())
  {
  }

  /** The seeded communities have distinct names, each with distinct field names. */
  lemma InitialComunidadesWellFormed()
    ensures ComunidadesWellFormed(InitialMetasPorComunidad())
  {
    ComunidadUniqueKeys(1200, 350);
    ComunidadUniqueKeys(980, 280);
    ComunidadUniqueKeys(750, 220);
    ComunidadUniqueKeys(650, 190);
  }

  /** The React state of the `ConfiguracionMetas` component. */
  class Component {
    var metasPorMetodo: Obj<int>
    var metasPorComunidad: Obj<Obj<int>>
    var configuracionGeneral: ConfiguracionGeneral

    ghost predicate Valid()
      reads this
    {
      UniqueKeys(metasPorMetodo) && ComunidadesWellFormed(metasPorComunidad)
    }

    constructor ()
      ensures Valid()
      ensures metasPorMetodo == InitialMetasPorMetodo()
      ensures metasPorComunidad == InitialMetasPorComunidad()
      ensures configuracionGeneral == InitialConfiguracionGeneral()
    {
      InitialMetasPorMetodoUnique();
      InitialComunidadesWellFormed();
      metasPorMetodo := InitialMetasPorMetodo();
      metasPorComunidad := InitialMetasPorComunidad();
      configuracionGeneral := InitialConfiguracionGeneral();
    }

    /** The "Total Meta Anual" figure. */
    function TotalMetaAnual(): int
      reads this
    {
      Sum(metasPorMetodo)
    }

    /** `updateMetaPorMetodo`: last write wins, the total moves by the difference. */
    method UpdateMetaPorMetodo(metodo: string, valor: int)
      requires Valid()
      modifies this
      ensures Valid()
      ensures metasPorMetodo == Put(old(metasPorMetodo), metodo, valor)
      ensures TotalMetaAnual() == old(TotalMetaAnual()) - GetOr(old(metasPorMetodo), metodo, 0) + valor
      ensures metasPorComunidad == old(metasPorComunidad)
      ensures configuracionGeneral == old(configuracionGeneral)
    {
      PutUniqueKeys(metasPorMetodo, metodo, valor);
      SumAfterPut(metasPorMetodo, metodo, valor);
      metasPorMetodo := Put(metasPorMetodo, metodo, valor);
    }

    method UpdateMetaPorComunidad(comunidad: string, campo: Campo, valor: int)
      requires Valid()
      modifies this
      ensures Valid()
      ensures metasPorComunidad == MetaPorComunidadUpdated(old(metasPorComunidad), comunidad, campo, valor)
      ensures metasPorMetodo == old(metasPorMetodo)
      ensures configuracionGeneral == old(configuracionGeneral)
    {
      MetaPorComunidadKeepsWellFormed(metasPorComunidad, comunidad, campo, valor);
      metasPorComunidad := MetaPorComunidadUpdated(metasPorComunidad, comunidad, campo, valor);
    }

    method SetAlertasCumplimiento(checked: bool)
      modifies this
      ensures configuracionGeneral == old(configuracionGeneral).(alertasCumplimiento := checked)
      ensures metasPorMetodo == old(metasPorMetodo) && metasPorComunidad == old(metasPorComunidad)
    {
      configuracionGeneral := configuracionGeneral.(alertasCumplimiento := checked);
    }

    method SetNotificacionesSync(checked: bool)
      modifies this
      ensures configuracionGeneral == old(configuracionGeneral).(notificacionesSync := checked)
      ensures metasPorMetodo == old(metasPorMetodo) && metasPorComunidad == old(metasPorComunidad)
    {
      configuracionGeneral := configuracionGeneral.(notificacionesSync := checked);
    }

    /** The threshold inputs store `parseInt(value) || 0`, with no range check. */
    method SetUmbralCritico(parsed: Option<int>)
      modifies this
      ensures configuracionGeneral == old(configuracionGeneral).(umbralCritico := OrZero(parsed))
      ensures metasPorMetodo == old(metasPorMetodo) && metasPorComunidad == old(metasPorComunidad)
    {
      configuracionGeneral := configuracionGeneral.(umbralCritico := OrZero(parsed));
    }

    method SetUmbralAlerta(parsed: Option<int>)
      modifies this
      ensures configuracionGeneral == old(configuracionGeneral).(umbralAlerta := OrZero(parsed))
      ensures metasPorMetodo == old(metasPorMetodo) && metasPorComunidad == old(metasPorComunidad)
    {
      configuracionGeneral := configuracionGeneral.(umbralAlerta := OrZero(parsed));
    }
  }
}
