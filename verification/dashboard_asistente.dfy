/**
 * The technical assistant's dashboard (src/components/dashboard-asistente.tsx):
 * the coverage colouring of communities, the status badge of incoming
 * records, the "Nuevos" marker and the territory shown in the header.
 */
module DashboardAsistente {
  import opened Base
  import App
  import PantallaValidacion

  /** `getEstadoColor`: five or more is green, one to four yellow, below one red. */
  function CoverageTier(cobertura: int): (t: Tier)
    ensures t == GreenTier <==> cobertura >= 5
    ensures t == YellowTier <==> 1 <= cobertura < 5
    ensures t == RedTier <==> cobertura < 1
  {
    if cobertura >= 5 then GreenTier
    else if cobertura >= 1 then YellowTier
    else RedTier
  }

  /** More coverage never gets a worse colour. */
  lemma CoverageTierMonotone(a: int, b: int)
    requires a <= b
    ensures Level(CoverageTier(a)) <= Level(CoverageTier(b))
  {
  }

  /** `getEstadoBadge`: three known statuses, gray for anything else. */
  function EstadoBadge(estado: string): Tone
  {
    if estado == "pendiente" then Yellow
    else if estado == "revision" then Blue
    else if estado == "aprobado" then Green
    else Gray
  }

  /**
   * Only pendiente, revision and aprobado have a colour of their own (for
   * strings that are not names every object inherits).
   */
  lemma EstadoBadgeGrayIffUnknown(estado: string)
    requires !ObjectPrototypeName(estado)
    ensures EstadoBadge(estado) == Gray <==> estado != "pendiente" && estado != "revision" && estado != "aprobado"
  {
  }

  /**
   * A rejected record is gray here, while the validation screen shows the
   * same status in red; the other three statuses get the same colour on both.
   */
  lemma RechazadoColouredDifferently()
    ensures EstadoBadge("rechazado") == Gray
    ensures PantallaValidacion.EstadoBadge("rechazado").tone == Red
    ensures forall e :: e != PantallaValidacion.Rechazado ==>
      EstadoBadge(PantallaValidacion.EstadoCode(e)) == PantallaValidacion.EstadoBadge(PantallaValidacion.EstadoCode(e)).tone
  {
    assert EstadoBadge("rechazado") == Gray;
  }

  /** The "Nuevos" marker beside the pending counter. */
  predicate NuevosShown(registrosPendientes: int)
  {
    registrosPendientes > 0
  }

  /**
   * Were the counter the number of pending records, the marker would show
   * exactly when some record is pending.
   */
  lemma {:induction false} NuevosShownIffSomePending(rs: seq<PantallaValidacion.RegistroValidacion>)
    ensures NuevosShown(PantallaValidacion.PendingCount(rs))
      <==> exists i :: 0 <= i < |rs| && rs[i].estado == PantallaValidacion.Pendiente
  {
    if rs != [] {
      NuevosShownIffSomePending(rs[1..]);
      if rs[0].estado != PantallaValidacion.Pendiente {
        assert forall i :: 1 <= i < |rs| ==> rs[i] == rs[1..][i - 1];
      }
    }
  }

  /** `user?.territory || 'Norte'`: a missing or empty territory reads as Norte. */
  function Territorio(user: Option<App.User>): (t: string)
    ensures t != ""
    ensures t == "Norte" <==>
      (user.None? || user.value.territory.None? ||
       user.value.territory.value == "" || user.value.territory.value == "Norte")
    ensures user.Some? && user.value.territory.Some? && user.value.territory.value != ""
      ==> t == user.value.territory.value
  {
    if user.Some? && user.value.territory.Some? && user.value.territory.value != "" then
      user.value.territory.value
    else
      "Norte"
  }

  /** A community of the territory list. */
  datatype Comunidad = Comunidad(nombre: string, codigo: string, cobertura: int, color: Tone, registros: int)

  function Comunidades(): seq<Comunidad>
  {
    [Comunidad("San Pedro Necta", "Norte", 7, Blue, 1),
     Comunidad("Todos Santos", "Norte", 0, Red, 0),
     Comunidad("Santa Bárbara", "Sur", 0, Red, 1),
     Comunidad("La Democracia", "Este", 3, Yellow, 1),
     Comunidad("Santiago Chimaltenango", "Oeste", 2, Yellow, 0)]
  }

  /** The tone each tier's text is drawn in. */
  function TierTone(t: Tier): Tone
  {
    match t
    case GreenTier => Green
    case YellowTier => Yellow
    case RedTier => Red
  }

  /**
   * In the seeded list the coverage text and the community's dot share a
   * colour everywhere but in the first row, where green text sits beside a
   * blue dot.
   */
  lemma ComunidadesColours()
    ensures var cs := Comunidades();
      forall i :: 1 <= i < |cs| ==> TierTone(CoverageTier(cs[i].cobertura)) == cs[i].color
    ensures TierTone(CoverageTier(Comunidades()[0].cobertura)) == Green
    ensures Comunidades()[0].color == Blue
  {
  }

  /** One entry of the incoming-records list. */
  datatype RegistroPendiente = RegistroPendiente(
    id: int, auxiliar: string, comunidad: string, fecha: string,
    usuarias: int, metodos: int, estado: string)

  function RegistrosPendientes(): seq<RegistroPendiente>
  {
    [RegistroPendiente(1, "Ana López", "San Pedro Necta", "13 Sep 2025", 7, 2, "pendiente"),
     RegistroPendiente(2, "María Morales", "La Democracia", "12 Sep 2025", 3, 1, "pendiente"),
     RegistroPendiente(3, "Carmen Pérez", "Santa Bárbara", "11 Sep 2025", 5, 3, "revision")]
  }

  /** The header figure `registrosPendientes`. */
  const RegistrosPendientesShown: int := 3

  /**
   * The pending counter (3) shows the "Nuevos" marker and matches the length
   * of the list below it, not the two records whose status is pendiente.
   */
  lemma PendingCounterFacts()
    ensures NuevosShown(RegistrosPendientesShown)
    ensures RegistrosPendientesShown == |RegistrosPendientes()|
    ensures |set i | 0 <= i < |RegistrosPendientes()| && RegistrosPendientes()[i].estado == "pendiente"| == 2
  {
    var rs := RegistrosPendientes();
    assert (set i | 0 <= i < |rs| && rs[i].estado == "pendiente") == {0, 1};
  }
}
