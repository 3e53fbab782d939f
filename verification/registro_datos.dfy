/**
 * The monthly tally editor (src/components/registro-datos.tsx): one counter
 * per contraceptive method, raised and lowered by buttons and never below
 * zero, grouped by category for display, and saved only when something was
 * recorded.
 */
module RegistroDatos {
  import opened Base
  import App

  /** A method and how many users were served with it this month (the icon is not modelled). */
  datatype MetodoAnticonceptivo = MetodoAnticonceptivo(id: string, nombre: string, categoria: string, cantidad: int)

  /** `Math.max(0, x)`. */
  function AtLeastZero(x: int): (r: int)
    ensures r >= 0 && r >= x
    ensures r == x || r == 0
  {
    if x < 0 then 0 else x
  }

  function Adjusted(m: MetodoAnticonceptivo, id: string, increment: bool): MetodoAnticonceptivo
  {
    if m.id == id then m.(cantidad := AtLeastZero(m.cantidad + (if increment then 1 else -1))) else m
  }

  /** The list after `updateCantidad(id, increment)`. */
  function CantidadUpdated(ms: seq<MetodoAnticonceptivo>, id: string, increment: bool): (r: seq<MetodoAnticonceptivo>)
    ensures |r| == |ms|
  {
    if ms == [] then [] else [Adjusted(ms[0], id, increment)] + CantidadUpdated(ms[1..], id, increment)
  }

  /**
   * Only the methods with the id change, and only their count: plus one when
   * raising a non-negative count, minus one but never below zero when lowering.
   */
  lemma {:induction false} CantidadUpdatedFrame(ms: seq<MetodoAnticonceptivo>, id: string, increment: bool, i: int)
    requires 0 <= i < |ms|
    ensures var r := CantidadUpdated(ms, id, increment)[i];
      && (ms[i].id != id ==> r == ms[i])
      && (ms[i].id == id ==> r == ms[i].(cantidad := r.cantidad) && r.cantidad >= 0)
      && (ms[i].id == id && increment && ms[i].cantidad >= 0 ==> r.cantidad == ms[i].cantidad + 1)
      && (ms[i].id == id && !increment ==> r.cantidad == if ms[i].cantidad > 0 then ms[i].cantidad - 1 else 0)
  {
    if i > 0 {
      CantidadUpdatedFrame(ms[1..], id, increment, i - 1);
    }
  }

  ghost predicate NonNegative(ms: seq<MetodoAnticonceptivo>)
  {
    forall i :: 0 <= i < |ms| ==> ms[i].cantidad >= 0
  }

  ghost predicate UniqueIds(ms: seq<MetodoAnticonceptivo>)
  {
    forall i, j :: 0 <= i < j < |ms| ==> ms[i].id != ms[j].id
  }

  lemma UpdateKeepsNonNegative(ms: seq<MetodoAnticonceptivo>, id: string, increment: bool)
    requires NonNegative(ms)
    ensures NonNegative(CantidadUpdated(ms, id, increment))
  {
    forall i | 0 <= i < |ms|
      ensures CantidadUpdated(ms, id, increment)[i].cantidad >= 0
    {
      CantidadUpdatedFrame(ms, id, increment, i);
    }
  }

  /** The buttons change counts only: every position keeps its id, so unique ids stay unique. */
  lemma UpdateKeepsIds(ms: seq<MetodoAnticonceptivo>, id: string, increment: bool)
    ensures forall i :: 0 <= i < |ms| ==> CantidadUpdated(ms, id, increment)[i].id == ms[i].id
    ensures UniqueIds(ms) ==> UniqueIds(CantidadUpdated(ms, id, increment))
  {
    forall i | 0 <= i < |ms|
      ensures CantidadUpdated(ms, id, increment)[i].id == ms[i].id
    {
      CantidadUpdatedFrame(ms, id, increment, i);
    }
  }

  /** A press for an id no method has leaves the list as it is. */
  lemma {:induction false} UpdateAbsentId(ms: seq<MetodoAnticonceptivo>, id: string, increment: bool)
    requires forall i :: 0 <= i < |ms| ==> ms[i].id != id
    ensures CantidadUpdated(ms, id, increment) == ms
  {
    if ms != [] {
      UpdateAbsentId(ms[1..], id, increment);
    }
  }

  /** The list after a sequence of button presses, each an (id, increment) pair. */
  function ApplyAll(ms: seq<MetodoAnticonceptivo>, presses: seq<(string, bool)>): seq<MetodoAnticonceptivo>
    decreases |presses|
  {
    if presses == [] then ms
    else ApplyAll(CantidadUpdated(ms, presses[0].0, presses[0].1), presses[1..])
  }

  /** No sequence of presses drives a count below zero. */
  lemma {:induction false} ApplyAllKeepsNonNegative(ms: seq<MetodoAnticonceptivo>, presses: seq<(string, bool)>)
    requires NonNegative(ms)
    ensures NonNegative(ApplyAll(ms, presses))
    decreases |presses|
  {
    if presses != [] {
      UpdateKeepsNonNegative(ms, presses[0].0, presses[0].1);
      ApplyAllKeepsNonNegative(CantidadUpdated(ms, presses[0].0, presses[0].1), presses[1..]);
    }
  }

  /** The minus button is disabled at zero; pressing it there anyway changes nothing. */
  predicate MinusEnabled(m: MetodoAnticonceptivo)
  {
    m.cantidad != 0
  }

  lemma {:induction false} DecrementAtZeroIsNoOp(ms: seq<MetodoAnticonceptivo>, id: string)
    requires forall i :: 0 <= i < |ms| && ms[i].id == id ==> !MinusEnabled(ms[i])
    ensures CantidadUpdated(ms, id, false) == ms
  {
    if ms != [] {
      DecrementAtZeroIsNoOp(ms[1..], id);
    }
  }

  /** `getTotalUsuarias`. */
  function TotalUsuarias(ms: seq<MetodoAnticonceptivo>): int
  {
    if ms == [] then 0 else ms[0].cantidad + TotalUsuarias(ms[1..])
  }

  /** Two lists that differ in the count at `k` only have totals that differ by the same amount. */
  lemma {:induction false} TotalPointChange(a: seq<MetodoAnticonceptivo>, b: seq<MetodoAnticonceptivo>, k: int)
    requires |a| == |b| && 0 <= k < |a|
    requires forall i :: 0 <= i < |a| && i != k ==> a[i].cantidad == b[i].cantidad
    ensures TotalUsuarias(b) - b[k].cantidad == TotalUsuarias(a) - a[k].cantidad
  {
    if k == 0 {
      TotalSameCounts(a[1..], b[1..]);
    } else {
      TotalPointChange(a[1..], b[1..], k - 1);
    }
  }

  lemma {:induction false} TotalSameCounts(a: seq<MetodoAnticonceptivo>, b: seq<MetodoAnticonceptivo>)
    requires |a| == |b|
    requires forall i :: 0 <= i < |a| ==> a[i].cantidad == b[i].cantidad
    ensures TotalUsuarias(a) == TotalUsuarias(b)
  {
    if a != [] {
      TotalSameCounts(a[1..], b[1..]);
    }
  }

  /**
   * With unique ids, raising a method adds one to the total; lowering it takes
   * one away exactly when its count was above zero.
   */
  lemma TotalAfterUpdate(ms: seq<MetodoAnticonceptivo>, k: int, increment: bool)
    requires UniqueIds(ms) && NonNegative(ms) && 0 <= k < |ms|
    ensures TotalUsuarias(CantidadUpdated(ms, ms[k].id, increment))
         == TotalUsuarias(ms) + (if increment then 1 else if ms[k].cantidad > 0 then -1 else 0)
  {
    var r := CantidadUpdated(ms, ms[k].id, increment);
    forall i | 0 <= i < |ms| && i != k
      ensures ms[i].cantidad == r[i].cantidad
    {
      CantidadUpdatedFrame(ms, ms[k].id, increment, i);
    }
    CantidadUpdatedFrame(ms, ms[k].id, increment, k);
    TotalPointChange(ms, r, k);
  }

  /** The "Métodos activos" figure: methods with a positive count. */
  function MetodosActivos(ms: seq<MetodoAnticonceptivo>): nat
  {
    if ms == [] then 0 else (if ms[0].cantidad > 0 then 1 else 0) + MetodosActivos(ms[1..])
  }

  lemma {:induction false} MetodosActivosBounds(ms: seq<MetodoAnticonceptivo>)
    requires NonNegative(ms)
    ensures MetodosActivos(ms) <= TotalUsuarias(ms)
    ensures MetodosActivos(ms) <= |ms|
  {
    if ms != [] {
      MetodosActivosBounds(ms[1..]);
    }
  }

  /** With no negative count, the total is zero exactly when every count is zero. */
  lemma {:induction false} TotalZeroIffAllZero(ms: seq<MetodoAnticonceptivo>)
    requires NonNegative(ms)
    ensures TotalUsuarias(ms) >= 0
    ensures TotalUsuarias(ms) == 0 <==> forall i :: 0 <= i < |ms| ==> ms[i].cantidad == 0
  {
    if ms != [] {
      TotalZeroIffAllZero(ms[1..]);
      if TotalUsuarias(ms) == 0 {
        forall i | 0 <= i < |ms| ensures ms[i].cantidad == 0 {
          if i > 0 {
            assert ms[i] == ms[1..][i - 1];
          }
        }
      } else if ms[0].cantidad == 0 {
        var rest := ms[1..];
        var i :| 0 <= i < |rest| && rest[i].cantidad != 0;
        assert ms[i + 1].cantidad != 0;
      }
    }
  }

  /** What `handleSaveRegistro` does: refuse with a message, or save and go back to the dashboard. */
  datatype SaveOutcome = Refused(message: string) | Saved(total: int, next: App.Screen)

  function HandleSaveRegistro(ms: seq<MetodoAnticonceptivo>): (o: SaveOutcome)
    ensures o.Refused? <==> TotalUsuarias(ms) == 0
    ensures o.Saved? ==> o.total == TotalUsuarias(ms) && o.next == App.DashboardAuxiliar
  {
    var total := TotalUsuarias(ms);
    if total == 0 then Refused("Debes registrar al menos una usuaria")
    else Saved(total, App.DashboardAuxiliar)
  }

  /** The save button is enabled when the total is not zero. */
  predicate SaveEnabled(ms: seq<MetodoAnticonceptivo>)
  {
    TotalUsuarias(ms) != 0
  }

  /** Saving is refused, and the button disabled, exactly when nothing was recorded. */
  lemma SaveRefusedIffNothingRecorded(ms: seq<MetodoAnticonceptivo>)
    requires NonNegative(ms)
    ensures HandleSaveRegistro(ms).Refused? <==> forall i :: 0 <= i < |ms| ==> ms[i].cantidad == 0
    ensures SaveEnabled(ms) <==> HandleSaveRegistro(ms).Saved?
  {
    TotalZeroIffAllZero(ms);
  }

  /** The position of the first occurrence of `x`. */
  function FirstIndex(xs: seq<string>, x: string): (p: nat)
    requires x in xs
    ensures p < |xs| && xs[p] == x
    ensures forall q :: 0 <= q < p ==> xs[q] != x
  {
    var n := |xs| - 1;
    if x in xs[..n] then
      var p := FirstIndex(xs[..n], x);
      assert xs[..n][p] == xs[p];
      p
    else n
  }

  /** `[...new Set(xs)]`: the distinct values, in order of first appearance. */
  function Distinct(xs: seq<string>): seq<string>
  {
    if xs == [] then []
    else
      var d := Distinct(xs[..|xs| - 1]);
      if xs[|xs| - 1] in d then d else d + [xs[|xs| - 1]]
  }

  lemma {:induction false} DistinctMembers(xs: seq<string>)
    ensures forall x :: x in Distinct(xs) <==> x in xs
  {
    if xs != [] {
      var n := |xs| - 1;
      DistinctMembers(xs[..n]);
      assert xs == xs[..n] + [xs[n]];
    }
  }

  lemma {:induction false} DistinctNoDuplicates(xs: seq<string>)
    ensures forall i, j :: 0 <= i < j < |Distinct(xs)| ==> Distinct(xs)[i] != Distinct(xs)[j]
  {
    if xs != [] {
      DistinctNoDuplicates(xs[..|xs| - 1]);
    }
  }

  /** The distinct values come in the order in which they first appear. */
  lemma {:induction false} DistinctFirstAppearance(xs: seq<string>)
    ensures forall x :: x in Distinct(xs) ==> x in xs
    ensures forall i, j :: 0 <= i < j < |Distinct(xs)| ==>
      FirstIndex(xs, Distinct(xs)[i]) < FirstIndex(xs, Distinct(xs)[j])
  {
    DistinctMembers(xs);
    if xs != [] {
      var n := |xs| - 1;
      var p := xs[..n];
      DistinctFirstAppearance(p);
      DistinctMembers(p);
      var d := Distinct(xs);
      var dp := Distinct(p);
      forall i, j | 0 <= i < j < |d|
        ensures FirstIndex(xs, d[i]) < FirstIndex(xs, d[j])
      {
        assert d[i] == dp[i];
        if j < |dp| {
          assert d[j] == dp[j];
          assert FirstIndex(p, dp[i]) < FirstIndex(p, dp[j]);
        } else {
          assert d[j] == xs[n] && xs[n] !in p;
          assert FirstIndex(xs, d[i]) == FirstIndex(p, dp[i]);
        }
      }
    }
  }

  /** The methods of one category, in list order. */
  function Filter(ms: seq<MetodoAnticonceptivo>, c: string): seq<MetodoAnticonceptivo>
  {
    if ms == [] then []
    else (if ms[0].categoria == c then [ms[0]] else []) + Filter(ms[1..], c)
  }

  lemma {:induction false} FilterMembers(ms: seq<MetodoAnticonceptivo>, c: string)
    ensures forall m :: m in Filter(ms, c) <==> m in ms && m.categoria == c
  {
    if ms != [] {
      FilterMembers(ms[1..], c);
      assert ms == [ms[0]] + ms[1..];
    }
  }

  /** Filtering keeps list order: it distributes over concatenation. */
  lemma {:induction false} FilterConcat(a: seq<MetodoAnticonceptivo>, b: seq<MetodoAnticonceptivo>, c: string)
    ensures Filter(a + b, c) == Filter(a, c) + Filter(b, c)
  {
    if a == [] {
      assert a + b == b;
    } else {
      var h := if a[0].categoria == c then [a[0]] else [];
      calc {
        Filter(a + b, c);
      == { assert (a + b)[0] == a[0]; assert (a + b)[1..] == a[1..] + b; }
        h + Filter(a[1..] + b, c);
      == { FilterConcat(a[1..], b, c); }
        h + (Filter(a[1..], c) + Filter(b, c));
      ==
        (h + Filter(a[1..], c)) + Filter(b, c);
      }
    }
  }

  datatype Grupo = Grupo(categoria: string, metodos: seq<MetodoAnticonceptivo>)

  function Categorias(ms: seq<MetodoAnticonceptivo>): seq<string>
  {
    seq(|ms|, i requires 0 <= i < |ms| => ms[i].categoria)
  }

  /** `getMetodosPorCategoria`. */
  function MetodosPorCategoria(ms: seq<MetodoAnticonceptivo>): seq<Grupo>
  {
    var cs := Distinct(Categorias(ms));
    seq(|cs|, j requires 0 <= j < |cs| => Grupo(cs[j], Filter(ms, cs[j])))
  }

  /**
   * Each category has one group, in order of first appearance; a group is
   * never empty and holds only methods of its category.
   */
  lemma GruposWellFormed(ms: seq<MetodoAnticonceptivo>)
    ensures var gs := MetodosPorCategoria(ms);
      && (forall g :: 0 <= g < |gs| ==> gs[g].categoria in Categorias(ms))
      && (forall g, h :: 0 <= g < h < |gs| ==> gs[g].categoria != gs[h].categoria)
      && (forall g, h :: 0 <= g < h < |gs| ==>
            FirstIndex(Categorias(ms), gs[g].categoria) < FirstIndex(Categorias(ms), gs[h].categoria))
      && (forall g :: 0 <= g < |gs| ==> gs[g].metodos != [])
      && (forall g, m :: 0 <= g < |gs| && m in gs[g].metodos ==> m.categoria == gs[g].categoria)
  {
    var cs := Categorias(ms);
    var gs := MetodosPorCategoria(ms);
    DistinctNoDuplicates(cs);
    DistinctFirstAppearance(cs);
    forall g | 0 <= g < |gs|
      ensures gs[g].metodos != []
      ensures forall m :: m in gs[g].metodos ==> m.categoria == gs[g].categoria
    {
      var c := gs[g].categoria;
      FilterMembers(ms, c);
      assert c in cs;
      var i :| 0 <= i < |cs| && cs[i] == c;
      assert ms[i] in gs[g].metodos;
    }
  }

  /** Every method lies in exactly one group: the one of its category. */
  lemma EveryMetodoInExactlyOneGrupo(ms: seq<MetodoAnticonceptivo>, i: int)
    requires 0 <= i < |ms|
    ensures var gs := MetodosPorCategoria(ms);
      && (exists g :: 0 <= g < |gs| && gs[g].categoria == ms[i].categoria && ms[i] in gs[g].metodos)
      && (forall g, h :: 0 <= g < |gs| && 0 <= h < |gs| && ms[i] in gs[g].metodos && ms[i] in gs[h].metodos ==> g == h)
  {
    var cs := Categorias(ms);
    var gs := MetodosPorCategoria(ms);
    DistinctMembers(cs);
    DistinctNoDuplicates(cs);
    FilterMembers(ms, ms[i].categoria);
    assert cs[i] == ms[i].categoria;
    assert ms[i].categoria in Distinct(cs);
    var g :| 0 <= g < |Distinct(cs)| && Distinct(cs)[g] == ms[i].categoria;
    assert gs[g].categoria == ms[i].categoria && ms[i] in gs[g].metodos;
    GruposWellFormed(ms);
  }

  /** The thirteen methods the form starts with, all at zero. */
  function InitialMetodos(): seq<MetodoAnticonceptivo>
  {
    [ MetodoAnticonceptivo("iny_mensual", "Inyección Mensual", "Inyecciones", 0),
      MetodoAnticonceptivo("iny_bimensual", "Inyección Bimensual", "Inyecciones", 0),
      MetodoAnticonceptivo("iny_trimestral", "Inyección Trimestral", "Inyecciones", 0),
      MetodoAnticonceptivo("pildoras", "Píldoras", "Métodos Orales", 0),
      MetodoAnticonceptivo("pildora_emergencia", "Píldora de Emergencia", "Métodos Orales", 0),
      MetodoAnticonceptivo("diu", "DIU", "Dispositivos", 0),
      MetodoAnticonceptivo("implante", "Implante", "Dispositivos", 0),
      MetodoAnticonceptivo("condon_m", "Condón Masculino", "Métodos de Barrera", 0),
      MetodoAnticonceptivo("condon_f", "Condón Femenino", "Métodos de Barrera", 0),
      MetodoAnticonceptivo("mela", "MELA", "Métodos Naturales", 0),
      MetodoAnticonceptivo("collar_ciclo", "Collar del Ciclo", "Métodos Naturales", 0),
      MetodoAnticonceptivo("aqv_femenina", "AQV Femenina", "Métodos Definitivos", 0),
      MetodoAnticonceptivo("aqv_masculina", "AQV Masculina", "Métodos Definitivos", 0) ]
  }

  lemma InitialMetodosFacts()
    ensures |InitialMetodos()| == 13
    ensures NonNegative(InitialMetodos()) && TotalUsuarias(InitialMetodos()) == 0
  {
    var ms := InitialMetodos();
    assert forall i :: 0 <= i < |ms| ==> ms[i].cantidad == 0;
    TotalZeroIffAllZero(ms);
  }

  /** The id column of a list of methods. */
  function Ids(ms: seq<MetodoAnticonceptivo>): (ids: seq<string>)
    ensures |ids| == |ms| && forall i :: 0 <= i < |ms| ==> ids[i] == ms[i].id
  {
    seq(|ms|, i requires 0 <= i < |ms| => ms[i].id)
  }

  /** A list whose id column has no repeated value has unique ids. */
  lemma UniqueIdsOfColumn(ms: seq<MetodoAnticonceptivo>, ids: seq<string>)
    requires Ids(ms) == ids
    requires forall i, j :: 0 <= i < j < |ids| ==> ids[i] != ids[j]
    ensures UniqueIds(ms)
  {
    assert forall i :: 0 <= i < |ms| ==> ms[i].id == ids[i];
  }

  /** The id column of the initial methods. */
  lemma InitialIdColumn()
    ensures Ids(InitialMetodos()) == ["iny_mensual", "iny_bimensual", "iny_trimestral", "pildoras",
      "pildora_emergencia", "diu", "implante", "condon_m", "condon_f", "mela", "collar_ciclo",
      "aqv_femenina", "aqv_masculina"]
  {
  }

  /** The thirteen seeded ids are thirteen different strings. */
  lemma InitialIdsDistinct()
    ensures var ids := ["iny_mensual", "iny_bimensual", "iny_trimestral", "pildoras",
      "pildora_emergencia", "diu", "implante", "condon_m", "condon_f", "mela", "collar_ciclo",
      "aqv_femenina", "aqv_masculina"];
      forall i, j :: 0 <= i < j < |ids| ==> ids[i] != ids[j]
  {
  }

  /** The thirteen seeded methods have thirteen different ids. */
  lemma InitialUniqueIds()
    ensures UniqueIds(InitialMetodos())
  {
    InitialIdColumn();
    InitialIdsDistinct();
    UniqueIdsOfColumn(InitialMetodos(), ["iny_mensual", "iny_bimensual", "iny_trimestral", "pildoras",
      "pildora_emergencia", "diu", "implante", "condon_m", "condon_f", "mela", "collar_ciclo",
      "aqv_femenina", "aqv_masculina"]);
  }

  /**
   * A proof helper with no counterpart in the source: the seed list, with the
   * invariant the component keeps, kept apart from the constructor so that
   * the seed's literal is reasoned about once.
   */
  method SeedMetodos() returns (ms: seq<MetodoAnticonceptivo>)
    ensures ms == InitialMetodos() && NonNegative(ms) && UniqueIds(ms)
  {
    InitialMetodosFacts();
    InitialUniqueIds();
    ms := InitialMetodos();
  }

  lemma {:induction false} DistinctSnoc(xs: seq<string>, x: string)
    ensures Distinct(xs + [x]) == if x in xs then Distinct(xs) else Distinct(xs) + [x]
  {
    assert (xs + [x])[..|xs|] == xs;
    DistinctMembers(xs);
  }

  /** The category column of the initial methods. */
  lemma InitialCategoriaColumn()
    ensures Categorias(InitialMetodos()) ==
      ["Inyecciones", "Inyecciones", "Inyecciones"] + ["Métodos Orales", "Métodos Orales"] +
      ["Dispositivos", "Dispositivos"] + ["Métodos de Barrera", "Métodos de Barrera"] +
      ["Métodos Naturales", "Métodos Naturales"] + ["Métodos Definitivos", "Métodos Definitivos"]
  {
  }

  /** Appending a new value twice adds it once to the distinct list. */
  lemma NewPair(xs: seq<string>, d: seq<string>, x: string)
    requires Distinct(xs) == d && x !in d
    ensures Distinct(xs + [x, x]) == d + [x]
  {
    DistinctMembers(xs);
    DistinctSnoc(xs, x);
    DistinctSnoc(xs + [x], x);
    assert xs + [x] + [x] == xs + [x, x];
  }

  /** Three new, different values appended in pairs join the distinct list once each, in order. */
  lemma NewPairs3(xs: seq<string>, d: seq<string>, x: string, y: string, z: string)
    requires Distinct(xs) == d && x !in d && y !in d && z !in d
    requires x != y && x != z && y != z
    ensures Distinct(xs + [x, x] + [y, y] + [z, z]) == d + [x, y, z]
  {
    NewPair(xs, d, x);
    NewPair(xs + [x, x], d + [x], y);
    NewPair(xs + [x, x] + [y, y], d + [x] + [y], z);
    assert d + [x] + [y] + [z] == d + [x, y, z];
  }

  /** A value three times, then two other values twice each, give three distinct values. */
  lemma DistinctOfFirstRuns(iny: string, ora: string, dis: string)
    requires iny != ora && iny != dis && ora != dis
    ensures Distinct([iny, iny, iny] + [ora, ora] + [dis, dis]) == [iny, ora, dis]
  {
    var q1 := [iny, iny, iny];
    DistinctSnoc([], iny);
    assert [] + [iny] == [iny];
    DistinctSnoc([iny], iny);
    assert [iny] + [iny] == [iny, iny];
    DistinctSnoc([iny, iny], iny);
    assert [iny, iny] + [iny] == q1;
    NewPair(q1, [iny], ora);
    NewPair(q1 + [ora, ora], [iny, ora], dis);
  }

  /** Six different values in runs of three and two have the six values as their distinct list. */
  lemma DistinctOfRuns(iny: string, ora: string, dis: string, bar: string, nats: string, defs: string)
    requires iny != ora && iny != dis && iny != bar && iny != nats && iny != defs
    requires ora != dis && ora != bar && ora != nats && ora != defs
    requires dis != bar && dis != nats && dis != defs
    requires bar != nats && bar != defs && nats != defs
    ensures Distinct([iny, iny, iny] + [ora, ora] + [dis, dis] + [bar, bar] + [nats, nats] + [defs, defs])
         == [iny, ora, dis, bar, nats, defs]
  {
    var q3 := [iny, iny, iny] + [ora, ora] + [dis, dis];
    DistinctOfFirstRuns(iny, ora, dis);
    NewPairs3(q3, [iny, ora, dis], bar, nats, defs);
    assert [iny, ora, dis] + [bar, nats, defs] == [iny, ora, dis, bar, nats, defs];
  }

  /** The initial methods fall into six categories. */
  lemma InitialCategorias()
    ensures |MetodosPorCategoria(InitialMetodos())| == 6
  {
    InitialCategoriaColumn();
    DistinctOfRuns("Inyecciones", "Métodos Orales", "Dispositivos",
      "Métodos de Barrera", "Métodos Naturales", "Métodos Definitivos");
  }

  /** The React state of the `RegistroDatos` component. */
  class Component {
    var metodos: seq<MetodoAnticonceptivo>

    /** Counts never go negative and no two methods share an id. */
    ghost predicate Valid()
      reads this
    {
      NonNegative(metodos) && UniqueIds(metodos)
    }

    constructor ()
      ensures Valid() && metodos == InitialMetodos()
    {
      var ms := SeedMetodos();
      metodos := ms;
    }

    /**
     * `updateCantidad`: the plus and minus buttons. A press on a listed method
     * moves the total by one (none for minus at zero); a press on an unknown
     * id changes nothing.
     */
    method UpdateCantidad(id: string, increment: bool)
      requires Valid()
      modifies this
      ensures Valid()
      ensures metodos == CantidadUpdated(old(metodos), id, increment)
      ensures forall k :: 0 <= k < |old(metodos)| && old(metodos)[k].id == id ==>
        TotalUsuarias(metodos)
          == old(TotalUsuarias(metodos)) + (if increment then 1 else if old(metodos)[k].cantidad > 0 then -1 else 0)
      ensures (forall k :: 0 <= k < |old(metodos)| ==> old(metodos)[k].id != id) ==> metodos == old(metodos)
    {
      var ms := metodos;
      UpdateKeepsNonNegative(ms, id, increment);
      UpdateKeepsIds(ms, id, increment);
      forall k | 0 <= k < |ms| && ms[k].id == id
        ensures TotalUsuarias(CantidadUpdated(ms, id, increment))
          == TotalUsuarias(ms) + (if increment then 1 else if ms[k].cantidad > 0 then -1 else 0)
      {
        TotalAfterUpdate(ms, k, increment);
      }
      if forall k :: 0 <= k < |ms| ==> ms[k].id != id {
        UpdateAbsentId(ms, id, increment);
      }
      metodos := CantidadUpdated(ms, id, increment);
    }
  }
}
