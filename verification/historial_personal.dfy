/**
 * The personal history screen (src/components/historial-personal.tsx): a
 * fixed list of monthly records, the accumulated total, the rounded mean
 * over synchronised months, the status badge, and the edit action offered
 * only on editable records.
 */
module HistorialPersonal {
  import opened Base
  import App

  datatype EstadoSync = Sincronizado | Pendiente | Error

  /** The status strings the records carry. */
  function EstadoSyncCode(e: EstadoSync): string
  {
    match e
    case Sincronizado => "sincronizado"
    case Pendiente => "pendiente"
    case Error => "error"
  }

  datatype RegistroHistorial = RegistroHistorial(
    id: int,
    mes: string,
    anio: int,
    totalUsuarias: int,
    fechaRegistro: string,
    fechaSync: Option<string>,
    estado: EstadoSync,
    editable: bool,
    detalle: Detalle)

  /** The four months the screen lists. */
  function HistorialRegistros(): seq<RegistroHistorial>
  {
    [RegistroHistorial(1, "Septiembre", 2025, 24, "13 Sep 2025", Some("13 Sep 2025 14:30"),
       Sincronizado, true, Detalle(12, 8, 2, 2, 0, 0)),
     RegistroHistorial(2, "Agosto", 2025, 18, "15 Ago 2025", Some("15 Ago 2025 16:45"),
       Sincronizado, false, Detalle(10, 6, 1, 1, 0, 0)),
     RegistroHistorial(3, "Julio", 2025, 15, "12 Jul 2025", None,
       Pendiente, false, Detalle(8, 5, 1, 1, 0, 0)),
     RegistroHistorial(4, "Junio", 2025, 22, "14 Jun 2025", Some("14 Jun 2025 09:20"),
       Sincronizado, false, Detalle(11, 7, 2, 2, 0, 0))]
  }

  /** `getEstadoBadge`: look the status string up; anything unknown is shown as pending. */
  function EstadoBadge(estado: string): Badge
  {
    if estado == "sincronizado" then Badge(Green, "Sincronizado")
    else if estado == "pendiente" then Badge(Yellow, "Pendiente")
    else if estado == "error" then Badge(Red, "Error")
    else Badge(Yellow, "Pendiente")
  }

  /** A string that is no status, and no name every object inherits, gets the pending style. */
  lemma EstadoBadgeFallback(estado: string)
    requires forall e: EstadoSync :: estado != EstadoSyncCode(e)
    requires !ObjectPrototypeName(estado)
    ensures EstadoBadge(estado) == EstadoBadge(EstadoSyncCode(Pendiente))
  {
    assert estado != EstadoSyncCode(Sincronizado) && estado != EstadoSyncCode(Pendiente);
    assert estado != EstadoSyncCode(Error);
  }

  lemma EstadoBadgeDistinguishesStates(a: EstadoSync, b: EstadoSync)
    ensures EstadoBadge(EstadoSyncCode(a)) == EstadoBadge(EstadoSyncCode(b)) ==> a == b
  {
  }

  /** The sum of `totalUsuarias` (`getTotalAcumulado` applies it to every record). */
  function TotalUsuarias(rs: seq<RegistroHistorial>): int
  {
    if rs == [] then 0 else rs[0].totalUsuarias + TotalUsuarias(rs[1..])
  }

  /** The records whose `estado` is 'sincronizado', in order. */
  function Synced(rs: seq<RegistroHistorial>): (ss: seq<RegistroHistorial>)
    ensures |ss| + |Unsynced(rs)| == |rs|
  {
    if rs == [] then []
    else (if rs[0].estado == Sincronizado then [rs[0]] else []) + Synced(rs[1..])
  }

  /** The records that are not synchronised, in order. */
  function Unsynced(rs: seq<RegistroHistorial>): seq<RegistroHistorial>
  {
    if rs == [] then []
    else (if rs[0].estado != Sincronizado then [rs[0]] else []) + Unsynced(rs[1..])
  }

  /** The filter keeps exactly the synchronised records. */
  lemma {:induction false} SyncedMembers(rs: seq<RegistroHistorial>)
    ensures forall r :: r in Synced(rs) <==> r in rs && r.estado == Sincronizado
  {
    if rs != [] {
      SyncedMembers(rs[1..]);
      assert rs == [rs[0]] + rs[1..];
    }
  }

  /** `Math.round(s / n)` for a positive `n`: the nearest integer, halves rounded up. */
  function RoundDiv(s: int, n: int): (r: int)
    requires n > 0
    ensures 2 * n * r <= 2 * s + n < 2 * n * r + 2 * n
  {
    (2 * s + n) / (2 * n)
  }

  /** `getPromedioMensual`: the rounded mean over synchronised records, 0 if there are none. */
  function PromedioMensual(rs: seq<RegistroHistorial>): int
  {
    var ss := Synced(rs);
    if |ss| == 0 then 0 else RoundDiv(TotalUsuarias(ss), |ss|)
  }

  lemma {:induction false} TotalOfConcat(a: seq<RegistroHistorial>, b: seq<RegistroHistorial>)
    ensures TotalUsuarias(a + b) == TotalUsuarias(a) + TotalUsuarias(b)
  {
    if a == [] {
      assert a + b == b;
    } else {
      TotalOfConcat(a[1..], b);
      assert (a + b)[1..] == a[1..] + b;
    }
  }

  /** The accumulated total counts every record, whatever its status. */
  lemma {:induction false} TotalAcumuladoSplits(rs: seq<RegistroHistorial>)
    ensures TotalUsuarias(rs) == TotalUsuarias(Synced(rs)) + TotalUsuarias(Unsynced(rs))
  {
    if rs != [] {
      TotalAcumuladoSplits(rs[1..]);
      var h := if rs[0].estado == Sincronizado then [rs[0]] else [];
      var g := if rs[0].estado != Sincronizado then [rs[0]] else [];
      TotalOfConcat(h, Synced(rs[1..]));
      TotalOfConcat(g, Unsynced(rs[1..]));
    }
  }

  /** Filtering twice changes nothing. */
  lemma {:induction false} SyncedIdempotent(rs: seq<RegistroHistorial>)
    ensures Synced(Synced(rs)) == Synced(rs)
  {
    if rs != [] {
      SyncedIdempotent(rs[1..]);
      var tail := Synced(rs[1..]);
      if rs[0].estado == Sincronizado {
        assert Synced(rs) == [rs[0]] + tail;
        assert ([rs[0]] + tail)[1..] == tail;
      } else {
        assert Synced(rs) == tail;
      }
    }
  }

  /** Records that are not synchronised have no influence on the average. */
  lemma PromedioIgnoresUnsynced(rs: seq<RegistroHistorial>)
    ensures PromedioMensual(rs) == PromedioMensual(Synced(rs))
  {
    SyncedIdempotent(rs);
  }

  /** Every total between `lo` and `hi` puts the sum between `lo` and `hi` times the count. */
  lemma {:induction false} TotalBounds(ss: seq<RegistroHistorial>, lo: int, hi: int)
    requires forall i :: 0 <= i < |ss| ==> lo <= ss[i].totalUsuarias <= hi
    ensures lo * |ss| <= TotalUsuarias(ss) <= hi * |ss|
  {
    if ss != [] {
      TotalBounds(ss[1..], lo, hi);
      assert lo * |ss| == lo + lo * |ss[1..]|;
      assert hi * |ss| == hi + hi * |ss[1..]|;
    }
  }

  /** Rounding a mean of values in `[lo, hi]` stays in `[lo, hi]`. */
  lemma RoundDivBounds(s: int, n: int, lo: int, hi: int)
    requires n > 0 && lo * n <= s <= hi * n
    ensures lo <= RoundDiv(s, n) <= hi
  {
    var r := RoundDiv(s, n);
    MulCancel(n, 2 * r, 2 * hi + 1);
    MulCancel(n, 2 * lo + 1, 2 * r + 2);
  }

  lemma MulCancel(n: int, a: int, b: int)
    requires n > 0 && n * a <= n * b
    ensures a <= b
  {
    assert n * (b - a) >= 0;
  }

  /**
   * With at least one synchronised record, the average lies between the
   * smallest and the largest synchronised total.
   */
  lemma PromedioWithinSyncedRange(rs: seq<RegistroHistorial>, lo: int, hi: int)
    requires Synced(rs) != []
    requires forall r :: r in rs && r.estado == Sincronizado ==> lo <= r.totalUsuarias <= hi
    ensures lo <= PromedioMensual(rs) <= hi
  {
    var ss := Synced(rs);
    SyncedMembers(rs);
    assert forall i :: 0 <= i < |ss| ==> ss[i] in ss;
    TotalBounds(ss, lo, hi);
    RoundDivBounds(TotalUsuarias(ss), |ss|, lo, hi);
  }

  /** Nothing synchronised, nothing averaged. */
  lemma PromedioWithoutSynced(rs: seq<RegistroHistorial>)
    requires forall r :: r in rs ==> r.estado != Sincronizado
    ensures PromedioMensual(rs) == 0
  {
    SyncedMembers(rs);
  }

  /** The screen edit buttons lead to: the data entry screen, only for an editable record. */
  function EditActions(r: RegistroHistorial): (targets: seq<App.Screen>)
    ensures targets != [] <==> r.editable
    ensures forall t :: t in targets ==> t == App.RegistroDatos
  {
    if r.editable then [App.RegistroDatos] else []
  }

  /** On the seeded months: 79 in total, round(64 / 3) = 21 on average, balanced breakdowns. */
  lemma HistorialFacts()
    ensures TotalUsuarias(HistorialRegistros()) == 79
    ensures PromedioMensual(HistorialRegistros()) == 21
    ensures forall r :: r in HistorialRegistros() ==> r.totalUsuarias == DetalleTotal(r.detalle)
    ensures forall r :: r in HistorialRegistros() ==> (r.fechaSync.Some? <==> r.estado == Sincronizado)
    ensures forall r :: r in HistorialRegistros() && r.editable ==> r.id == 1
    ensures forall r :: r in HistorialRegistros() && r.id == 1 ==> r.editable
  {
    var rs := HistorialRegistros();
    var ss := Synced(rs);
    assert ss == [rs[0], rs[1], rs[3]];
    assert ss[1..] == [rs[1], rs[3]];
    assert ss[1..][1..] == [rs[3]];
    assert [rs[3]][1..] == [];
    assert TotalUsuarias([rs[3]]) == 22;
    assert TotalUsuarias([rs[1], rs[3]]) == 40;
    assert TotalUsuarias(ss) == 64;
  }
}
