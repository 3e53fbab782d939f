/**
 * The coordinator's strategic dashboard (src/components/dashboard-coordinador.tsx):
 * the ranking colourings and the consistency of the seeded comparison and
 * trend figures.
 */
module DashboardCoordinador {
  import opened Base

  /** `getPositionColor`: first two green, third and fourth yellow, the rest red. */
  function PositionColor(posicion: int): (t: Tier)
    ensures t == GreenTier <==> posicion <= 2
    ensures t == YellowTier <==> 2 < posicion <= 4
    ensures t == RedTier <==> posicion > 4
  {
    if posicion <= 2 then GreenTier
    else if posicion <= 4 then YellowTier
    else RedTier
  }

  /** `getPositionBadge`, written separately with the same thresholds. */
  function PositionBadge(posicion: int): Tier
  {
    if posicion <= 2 then GreenTier
    else if posicion <= 4 then YellowTier
    else RedTier
  }

  /** Text colour and badge agree for every position. */
  lemma PositionColorMatchesBadge(posicion: int)
    ensures PositionColor(posicion) == PositionBadge(posicion)
  {
  }

  /** A worse (larger) position never gets a better colour. */
  lemma PositionTierMonotone(p: int, q: int)
    requires p <= q
    ensures Level(PositionColor(q)) <= Level(PositionColor(p))
  {
  }

  datatype Metricas = Metricas(
    cumplimientoMunicipal: int,
    posicionRanking: int,
    totalMunicipios: int,
    proyeccionVsRealidad: int,
    calidadDatos: int)

  function SeedMetricas(): Metricas
  {
    Metricas(68, 3, 12, 85, 92)
  }

  datatype Municipio = Municipio(municipio: string, cumplimiento: int, posicion: int)

  function ComparativoIntermunicipal(): seq<Municipio>
  {
    [Municipio("Huehuetenango", 78, 1),
     Municipio("Chiantla", 72, 2),
     Municipio("Malacatancito", 68, 3),
     Municipio("Todos Santos", 65, 4),
     Municipio("San Pedro Necta", 62, 5)]
  }

  datatype Periodo = Periodo(periodo: string, valor: int)

  function TendenciaAnual(): seq<Periodo>
  {
    [Periodo("2023", 45), Periodo("2024", 58), Periodo("2025", 68)]
  }

  /** How many municipalities have a strictly higher compliance than `c`. */
  function CountAbove(xs: seq<Municipio>, c: int): (n: nat)
    ensures n <= |xs|
    ensures n == 0 <==> forall i :: 0 <= i < |xs| ==> xs[i].cumplimiento <= c
    ensures n == |xs| <==> forall i :: 0 <= i < |xs| ==> xs[i].cumplimiento > c
  {
    if xs == [] then 0
    else (if xs[0].cumplimiento > c then 1 else 0) + CountAbove(xs[1..], c)
  }

  /** Standard competition rank by compliance, highest first. */
  function RankOf(xs: seq<Municipio>, i: nat): nat
    requires i < |xs|
  {
    1 + CountAbove(xs, xs[i].cumplimiento)
  }

  ghost predicate StrictlyDecreasing(xs: seq<Municipio>)
  {
    forall i, j :: 0 <= i < j < |xs| ==> xs[i].cumplimiento > xs[j].cumplimiento
  }

  /** In a list sorted by strictly decreasing compliance, the `i`-th entry has rank `i + 1`. */
  lemma {:induction false} RankOfSorted(xs: seq<Municipio>, i: nat)
    requires StrictlyDecreasing(xs) && i < |xs|
    ensures RankOf(xs, i) == i + 1
  {
    if i == 0 {
      assert forall j :: 0 <= j < |xs[1..]| ==> xs[1..][j] == xs[j + 1];
    } else {
      RankOfSorted(xs[1..], i - 1);
      assert xs[1..][i - 1] == xs[i];
    }
  }

  /**
   * The seeded comparison lists positions 1 to 5 with strictly decreasing
   * compliance, so ranking by compliance reproduces every `posicion`.
   */
  lemma ComparativoRankingConsistent()
    ensures StrictlyDecreasing(ComparativoIntermunicipal())
    ensures forall i :: 0 <= i < |ComparativoIntermunicipal()| ==>
      ComparativoIntermunicipal()[i].posicion == RankOf(ComparativoIntermunicipal(), i)
  {
    var xs := ComparativoIntermunicipal();
    assert forall i :: 0 <= i < |xs| ==> xs[i].posicion == i + 1;
    PositionsAreRanks(xs);
  }

  /** A list sorted by strictly decreasing compliance and numbered from 1 is numbered by rank. */
  lemma PositionsAreRanks(xs: seq<Municipio>)
    requires StrictlyDecreasing(xs)
    requires forall i :: 0 <= i < |xs| ==> xs[i].posicion == i + 1
    ensures forall i :: 0 <= i < |xs| ==> xs[i].posicion == RankOf(xs, i)
  {
    forall i | 0 <= i < |xs|
      ensures xs[i].posicion == RankOf(xs, i)
    {
      RankOfSorted(xs, i);
    }
  }

  /**
   * The "+23%" trend text is the last yearly value minus the first, and the
   * headline compliance is the latest yearly value and the compliance of
   * the municipality at the headline ranking position.
   */
  lemma TrendAndHeadlineConsistent()
    ensures var t := TendenciaAnual(); t[|t| - 1].valor - t[0].valor == 23
    ensures SeedMetricas().cumplimientoMunicipal == TendenciaAnual()[|TendenciaAnual()| - 1].valor
    ensures SeedMetricas().cumplimientoMunicipal
         == ComparativoIntermunicipal()[SeedMetricas().posicionRanking - 1].cumplimiento
    ensures PositionColor(SeedMetricas().posicionRanking) == YellowTier
  {
  }
}
