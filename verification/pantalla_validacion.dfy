/**
 * The supervisor's validation screen (src/components/pantalla-validacion.tsx):
 * a list of submitted monthly records whose status the supervisor sets,
 * writing the current comment draft onto the record. There are no
 * transition guards: any status may be set from any status.
 */
module PantallaValidacion {
  import opened Base

  datatype Estado = Pendiente | Revision | Aprobado | Rechazado

  /** The string each status is stored as. */
  function EstadoCode(e: Estado): string
  {
    match e
    case Pendiente => "pendiente"
    case Revision => "revision"
    case Aprobado => "aprobado"
    case Rechazado => "rechazado"
  }

  datatype RegistroValidacion = RegistroValidacion(
    id: int,
    auxiliar: string,
    comunidad: string,
    fecha: string,
    usuarias: int,
    metodos: int,
    estado: Estado,
    detalle: Detalle,
    comentarios: Option<string>)

  /** `getEstadoBadge`: look the status string up; anything unknown is shown as pending. */
  function EstadoBadge(estado: string): Badge
  {
    if estado == "pendiente" then Badge(Yellow, "Pendiente")
    else if estado == "revision" then Badge(Blue, "En Revisión")
    else if estado == "aprobado" then Badge(Green, "Aprobado")
    else if estado == "rechazado" then Badge(Red, "Rechazado")
    else Badge(Yellow, "Pendiente")
  }

  /**
   * The lookup is total: a string that is no status, and no name every object
   * inherits, gets the pending style.
   */
  lemma EstadoBadgeFallback(estado: string)
    requires forall e: Estado :: estado != EstadoCode(e)
    requires !ObjectPrototypeName(estado)
    ensures EstadoBadge(estado) == EstadoBadge(EstadoCode(Pendiente))
  {
    assert estado != EstadoCode(Pendiente) && estado != EstadoCode(Revision);
    assert estado != EstadoCode(Aprobado) && estado != EstadoCode(Rechazado);
  }

  /** The four statuses are shown with four different badges. */
  lemma EstadoBadgeDistinguishesStates(a: Estado, b: Estado)
    ensures EstadoBadge(EstadoCode(a)) == EstadoBadge(EstadoCode(b)) ==> a == b
  {
  }

  /** The verb of the confirmation message of `updateEstadoRegistro`. */
  function Accion(nuevo: Estado): (verb: string)
    ensures nuevo == Aprobado || nuevo == Rechazado ==> verb == EstadoCode(nuevo)
    ensures nuevo == Revision || nuevo == Pendiente ==> verb == "marcado para revisión"
  {
    if nuevo == Aprobado then "aprobado"
    else if nuevo == Rechazado then "rechazado"
    else "marcado para revisión"
  }

  /** One record after the update: the record with the id takes the new status and the draft. */
  function Revised(r: RegistroValidacion, id: int, nuevo: Estado, draft: string): RegistroValidacion
  {
    if r.id == id then r.(estado := nuevo, comentarios := Some(draft)) else r
  }

  /** The list after `updateEstadoRegistro(id, nuevo)` with comment draft `draft`. */
  function UpdateEstado(rs: seq<RegistroValidacion>, id: int, nuevo: Estado, draft: string): (r: seq<RegistroValidacion>)
    ensures |r| == |rs|
  {
    if rs == [] then [] else [Revised(rs[0], id, nuevo, draft)] + UpdateEstado(rs[1..], id, nuevo, draft)
  }

  /** Whether two versions of a record agree on everything but status and comment. */
  predicate SameButReview(a: RegistroValidacion, b: RegistroValidacion)
  {
    a.(estado := b.estado, comentarios := b.comentarios) == b
  }

  /**
   * The update keeps the list's length, order and ids; records with another id
   * are untouched, and the record with the id changes only its status and comment,
   * which becomes the draft (even an empty one).
   */
  lemma {:induction false} UpdateEstadoFrame(rs: seq<RegistroValidacion>, id: int, nuevo: Estado, draft: string, i: int)
    requires 0 <= i < |rs|
    ensures var r := UpdateEstado(rs, id, nuevo, draft)[i];
      && SameButReview(rs[i], r)
      && (rs[i].id != id ==> r == rs[i])
      && (rs[i].id == id ==> r.estado == nuevo && r.comentarios == Some(draft))
  {
    if i > 0 {
      UpdateEstadoFrame(rs[1..], id, nuevo, draft, i - 1);
    }
  }

  /** An id that is in no record leaves the list as it was. */
  lemma {:induction false} UpdateEstadoAbsentId(rs: seq<RegistroValidacion>, id: int, nuevo: Estado, draft: string)
    requires forall i :: 0 <= i < |rs| ==> rs[i].id != id
    ensures UpdateEstado(rs, id, nuevo, draft) == rs
  {
    if rs != [] {
      UpdateEstadoAbsentId(rs[1..], id, nuevo, draft);
    }
  }

  /**
   * No transition guard: whatever its current status (approved and rejected
   * included), the record at `k` ends in the status asked for.
   */
  lemma AnyStatusReachable(rs: seq<RegistroValidacion>, k: int, nuevo: Estado, draft: string)
    requires 0 <= k < |rs|
    ensures UpdateEstado(rs, rs[k].id, nuevo, draft)[k].estado == nuevo
  {
    UpdateEstadoFrame(rs, rs[k].id, nuevo, draft, k);
  }

  /** The list shows "Tiene comentarios" only for a non-empty comment. */
  predicate HasComentarios(r: RegistroValidacion)
  {
    r.comentarios.Some? && r.comentarios.value != ""
  }

  /** An update with an empty draft erases the record's earlier comment. */
  lemma EmptyDraftErasesComment(rs: seq<RegistroValidacion>, k: int, nuevo: Estado)
    requires 0 <= k < |rs|
    ensures !HasComentarios(UpdateEstado(rs, rs[k].id, nuevo, "")[k])
  {
    UpdateEstadoFrame(rs, rs[k].id, nuevo, "", k);
  }

  /** An update with a non-empty draft shows that draft as the record's comment. */
  lemma NonEmptyDraftShowsComment(rs: seq<RegistroValidacion>, k: int, nuevo: Estado, draft: string)
    requires 0 <= k < |rs| && draft != ""
    ensures HasComentarios(UpdateEstado(rs, rs[k].id, nuevo, draft)[k])
    ensures UpdateEstado(rs, rs[k].id, nuevo, draft)[k].comentarios == Some(draft)
  {
    UpdateEstadoFrame(rs, rs[k].id, nuevo, draft, k);
  }

  /** The actions the detail view offers: all three, whatever the status. */
  function DetailActions(r: RegistroValidacion): (acts: seq<Estado>)
    ensures |acts| == 3
    ensures Aprobado in acts && Revision in acts && Rechazado in acts && Pendiente !in acts
  {
    [Aprobado, Revision, Rechazado]
  }

  /** The actions the list offers on a record's card: the three, for a pending record only. */
  function ListActions(r: RegistroValidacion): (acts: seq<Estado>)
    ensures acts != [] <==> r.estado == Pendiente
    ensures acts != [] ==> acts == DetailActions(r)
  {
    if r.estado == Pendiente then [Aprobado, Revision, Rechazado] else []
  }

  /** The number on the "pendientes" badge. */
  function PendingCount(rs: seq<RegistroValidacion>): nat
  {
    if rs == [] then 0 else (if rs[0].estado == Pendiente then 1 else 0) + PendingCount(rs[1..])
  }

  /** How many records carry the id. */
  function CountId(rs: seq<RegistroValidacion>, id: int): nat
  {
    if rs == [] then 0 else (if rs[0].id == id then 1 else 0) + CountId(rs[1..], id)
  }

  /** How many pending records carry the id. */
  function PendingWithId(rs: seq<RegistroValidacion>, id: int): nat
  {
    if rs == [] then 0
    else (if rs[0].id == id && rs[0].estado == Pendiente then 1 else 0) + PendingWithId(rs[1..], id)
  }

  /**
   * The update removes the pending records with the id from the count and,
   * when the new status is pending, adds back every record with the id.
   */
  lemma {:induction false} PendingCountAfterUpdate(rs: seq<RegistroValidacion>, id: int, nuevo: Estado, draft: string)
    ensures PendingCount(UpdateEstado(rs, id, nuevo, draft)) + PendingWithId(rs, id)
         == PendingCount(rs) + (if nuevo == Pendiente then CountId(rs, id) else 0)
  {
    if rs != [] {
      PendingCountAfterUpdate(rs[1..], id, nuevo, draft);
      assert UpdateEstado(rs, id, nuevo, draft)[1..] == UpdateEstado(rs[1..], id, nuevo, draft);
    }
  }

  ghost predicate UniqueIds(rs: seq<RegistroValidacion>)
  {
    forall i, j :: 0 <= i < j < |rs| ==> rs[i].id != rs[j].id
  }

  /** With unique ids, the record at `k` is the only one its id selects. */
  lemma {:induction false} UniqueIdCounts(rs: seq<RegistroValidacion>, k: int)
    requires UniqueIds(rs) && 0 <= k < |rs|
    ensures CountId(rs, rs[k].id) == 1
    ensures PendingWithId(rs, rs[k].id) == if rs[k].estado == Pendiente then 1 else 0
  {
    if k == 0 {
      AbsentIdCounts(rs[1..], rs[0].id);
    } else {
      assert rs[1..][k - 1] == rs[k];
      UniqueIdCounts(rs[1..], k - 1);
    }
  }

  lemma {:induction false} AbsentIdCounts(rs: seq<RegistroValidacion>, id: int)
    requires forall i :: 0 <= i < |rs| ==> rs[i].id != id
    ensures CountId(rs, id) == 0 && PendingWithId(rs, id) == 0
  {
    if rs != [] {
      AbsentIdCounts(rs[1..], id);
    }
  }

  /** Approving, rejecting or sending to review a pending record lowers the badge by exactly one. */
  lemma ResolvingPendingLowersCount(rs: seq<RegistroValidacion>, k: int, nuevo: Estado, draft: string)
    requires UniqueIds(rs) && 0 <= k < |rs|
    requires rs[k].estado == Pendiente && nuevo != Pendiente
    ensures PendingCount(UpdateEstado(rs, rs[k].id, nuevo, draft)) == PendingCount(rs) - 1
  {
    UniqueIdCounts(rs, k);
    PendingCountAfterUpdate(rs, rs[k].id, nuevo, draft);
  }

  /** Moving records that are not pending to a status that is not pending leaves the badge alone. */
  lemma {:induction false} NonPendingUpdateKeepsCount(rs: seq<RegistroValidacion>, id: int, nuevo: Estado, draft: string)
    requires forall i :: 0 <= i < |rs| && rs[i].id == id ==> rs[i].estado != Pendiente
    requires nuevo != Pendiente
    ensures PendingCount(UpdateEstado(rs, id, nuevo, draft)) == PendingCount(rs)
  {
    if rs != [] {
      NonPendingUpdateKeepsCount(rs[1..], id, nuevo, draft);
      assert UpdateEstado(rs, id, nuevo, draft)[1..] == UpdateEstado(rs[1..], id, nuevo, draft);
    }
  }

  /** Every record's `usuarias` is the sum of its breakdown. */
  ghost predicate Balanced(rs: seq<RegistroValidacion>)
  {
    forall i :: 0 <= i < |rs| ==> rs[i].usuarias == DetalleTotal(rs[i].detalle)
  }

  /** Status updates keep ids unique and totals balanced. */
  lemma UpdateEstadoKeepsInvariants(rs: seq<RegistroValidacion>, id: int, nuevo: Estado, draft: string)
    requires UniqueIds(rs) && Balanced(rs)
    ensures UniqueIds(UpdateEstado(rs, id, nuevo, draft)) && Balanced(UpdateEstado(rs, id, nuevo, draft))
  {
    var r := UpdateEstado(rs, id, nuevo, draft);
    forall i | 0 <= i < |rs|
      ensures r[i].id == rs[i].id && r[i].usuarias == rs[i].usuarias && r[i].detalle == rs[i].detalle
    {
      UpdateEstadoFrame(rs, id, nuevo, draft, i);
    }
  }

  /** The three records the screen starts with. */
  function SeedRegistros(): seq<RegistroValidacion>
  {
    [ RegistroValidacion(1, "Ana López", "San Pedro Necta", "13 Sep 2025", 7, 2, Pendiente,
        Detalle(4, 2, 1, 0, 0, 0), None),
      RegistroValidacion(2, "María Morales", "La Democracia", "12 Sep 2025", 3, 1, Pendiente,
        Detalle(2, 1, 0, 0, 0, 0), None),
      RegistroValidacion(3, "Carmen Pérez", "Santa Bárbara", "11 Sep 2025", 5, 3, Revision,
        Detalle(2, 1, 1, 1, 0, 0), Some("Revisar totales de dispositivos")) ]
  }

  lemma SeedRegistrosFacts()
    ensures UniqueIds(SeedRegistros()) && Balanced(SeedRegistros())
    ensures PendingCount(SeedRegistros()) == 2
  {
  }

  /** The React state of the `PantallaValidacion` component. */
  class Component {
    var registros: seq<RegistroValidacion>
    var comentarios: string
    var selectedRegistro: Option<RegistroValidacion>

    ghost predicate Valid()
      reads this
    {
      UniqueIds(registros) && Balanced(registros)
    }

    constructor ()
      ensures Valid()
      ensures registros == SeedRegistros() && comentarios == "" && selectedRegistro == None
    {
      registros := SeedRegistros();
      comentarios := "";
      selectedRegistro := None;
      SeedRegistrosFacts();
    }

    /** Opening a record's detail view. */
    method SelectRegistro(r: RegistroValidacion)
      modifies this
      ensures selectedRegistro == Some(r)
      ensures registros == old(registros) && comentarios == old(comentarios)
    {
      selectedRegistro := Some(r);
    }

    /** The back arrow of the detail view. */
    method CloseDetalle()
      modifies this
      ensures selectedRegistro == None
      ensures registros == old(registros) && comentarios == old(comentarios)
    {
      selectedRegistro := None;
    }

    /** Typing in the comment box. */
    method SetComentarios(text: string)
      modifies this
      ensures comentarios == text
      ensures registros == old(registros) && selectedRegistro == old(selectedRegistro)
    {
      comentarios := text;
    }

    /** `updateEstadoRegistro`: returns the verb of the confirmation message. */
    method UpdateEstadoRegistro(id: int, nuevo: Estado) returns (accion: string)
      requires Valid()
      modifies this
      ensures Valid()
      ensures registros == UpdateEstado(old(registros), id, nuevo, old(comentarios))
      ensures comentarios == "" && selectedRegistro == None
      ensures accion == Accion(nuevo)
    {
      UpdateEstadoKeepsInvariants(registros, id, nuevo, comentarios);
      registros := UpdateEstado(registros, id, nuevo, comentarios);
      accion := Accion(nuevo);
      selectedRegistro := None;
      comentarios := "";
    }
  }
}
