/** What the daily analyzer computes, stated over the expense list: which
    expenses fall on the queried day, each category's total for that day, and
    which category the analyzer must report. */
module Analisis {
  import opened Registros
  import opened Resumen

  /** `g.get("fecha") == fecha`: an expense without a date matches no day. */
  predicate EnFecha(g: Gasto, fecha: string) {
    g.fecha == Some(fecha)
  }

  /** `g.get("categoria", "General")`: unlike the summary line, which shows '?'. */
  function CategoriaDe(g: Gasto): string {
    g.categoria.GetOr("General")
  }

  /** What expense `g` adds to the total of category `cat` on day `fecha`. */
  function Aporte(fecha: string, cat: string): Gasto -> real {
    g => if EnFecha(g, fecha) && CategoriaDe(g) == cat then MontoGasto(g) else 0.0
  }

  /** The sum of the amounts of the expenses dated `fecha` in category `cat`. */
  function TotalCategoria(gastos: seq<Gasto>, fecha: string, cat: string): real {
    SumOf(gastos, Aporte(fecha, cat))
  }

  /** Index of the first expense dated `fecha` in category `cat`, or |gastos| if there is none. */
  function PrimeraEn(gastos: seq<Gasto>, fecha: string, cat: string): (i: nat)
    ensures i <= |gastos|
    ensures i < |gastos| ==> EnFecha(gastos[i], fecha) && CategoriaDe(gastos[i]) == cat
    ensures forall j :: 0 <= j < i ==> !(EnFecha(gastos[j], fecha) && CategoriaDe(gastos[j]) == cat)
    decreases |gastos|
  {
    if gastos == [] then 0
    else if EnFecha(gastos[0], fecha) && CategoriaDe(gastos[0]) == cat then 0
    else 1 + PrimeraEn(gastos[1..], fecha, cat)
  }

  /** `cat` with total `total` is what the analyzer reports for day `fecha`:
      an expense of that day has category `cat`, `total` is that category's
      total, no category of that day has a larger total, and every category
      whose first expense of the day comes earlier has a strictly smaller one. */
  ghost predicate EsMasGastado(gastos: seq<Gasto>, fecha: string, cat: string, total: real) {
    && PrimeraEn(gastos, fecha, cat) < |gastos|
    && total == TotalCategoria(gastos, fecha, cat)
    && (forall j :: 0 <= j < |gastos| && EnFecha(gastos[j], fecha) ==>
          TotalCategoria(gastos, fecha, CategoriaDe(gastos[j])) <= total)
    && (forall j :: 0 <= j < PrimeraEn(gastos, fecha, cat) && EnFecha(gastos[j], fecha) ==>
          TotalCategoria(gastos, fecha, CategoriaDe(gastos[j])) < total)
  }

  /** The tie-break makes the reported category a function of the expense list:
      at most one category and total satisfy EsMasGastado. */
  lemma MasGastadoUnico(gastos: seq<Gasto>, fecha: string, c1: string, t1: real, c2: string, t2: real)
    requires EsMasGastado(gastos, fecha, c1, t1)
    requires EsMasGastado(gastos, fecha, c2, t2)
    ensures c1 == c2 && t1 == t2
  {
    var p1 := PrimeraEn(gastos, fecha, c1);
    var p2 := PrimeraEn(gastos, fecha, c2);
    assert CategoriaDe(gastos[p1]) == c1 && CategoriaDe(gastos[p2]) == c2;
    assert t2 <= t1 && t1 <= t2;
  }

  /** What grouping the expenses `hechos` has produced for category `c`: it is
      a key of `totales` exactly when an expense dated `fecha` has category
      `c`, and its entry is that category's total for the day. */
  ghost predicate ClaveAgrupada(hechos: seq<Gasto>, fecha: string, totales: map<string, real>, c: string) {
    && (c in totales <==> PrimeraEn(hechos, fecha, c) < |hechos|)
    && TotalCategoria(hechos, fecha, c) == (if c in totales then totales[c] else 0.0)
  }

  /** `totales` and `orden` are what grouping the expenses `hechos` produces:
      every category is accounted for as ClaveAgrupada says, and `orden` lists
      the keys once each, in the order their first expense of the day appears
      (the key order of a Python dict). */
  ghost predicate Agrupado(hechos: seq<Gasto>, fecha: string, totales: map<string, real>, orden: seq<string>) {
    && (forall c :: ClaveAgrupada(hechos, fecha, totales, c))
    && (forall a :: 0 <= a < |orden| ==> orden[a] in totales)
    && (forall c :: c in totales ==> c in orden)
    && (forall a, b :: 0 <= a < b < |orden| ==> PrimeraEn(hechos, fecha, orden[a]) < PrimeraEn(hechos, fecha, orden[b]))
  }

  /** Where the first matching expense lies once one more expense is appended. */
  lemma PrimeraEnSnoc(hechos: seq<Gasto>, g: Gasto, fecha: string, cat: string)
    ensures PrimeraEn(hechos + [g], fecha, cat) ==
              if PrimeraEn(hechos, fecha, cat) < |hechos| then PrimeraEn(hechos, fecha, cat)
              else if EnFecha(g, fecha) && CategoriaDe(g) == cat then |hechos|
              else |hechos| + 1
  {
    var p := PrimeraEn(hechos, fecha, cat);
    if p < |hechos| {
      assert (hechos + [g])[p] == hechos[p];
    } else {
      assert (hechos + [g])[|hechos|] == g;
    }
  }

  /** How one more expense changes a category's total and first position. */
  lemma Siguiente(hechos: seq<Gasto>, g: Gasto, fecha: string, c: string)
    ensures TotalCategoria(hechos + [g], fecha, c) ==
              TotalCategoria(hechos, fecha, c) + (if EnFecha(g, fecha) && CategoriaDe(g) == c then MontoGasto(g) else 0.0)
    ensures PrimeraEn(hechos + [g], fecha, c) ==
              if PrimeraEn(hechos, fecha, c) < |hechos| then PrimeraEn(hechos, fecha, c)
              else if EnFecha(g, fecha) && CategoriaDe(g) == c then |hechos|
              else |hechos| + 1
  {
    SumOfAppend(hechos, g, Aporte(fecha, c));
    PrimeraEnSnoc(hechos, g, fecha, c);
  }

  /** Appending an expense that starts no new category keeps the key order:
      every key already has its first expense among `hechos`. */
  lemma OrdenSeConserva(hechos: seq<Gasto>, g: Gasto, fecha: string, totales: map<string, real>, orden: seq<string>)
    requires Agrupado(hechos, fecha, totales, orden)
    ensures forall a, b :: 0 <= a < b < |orden| ==>
              PrimeraEn(hechos + [g], fecha, orden[a]) < PrimeraEn(hechos + [g], fecha, orden[b])
  {
    forall a, b | 0 <= a < b < |orden|
      ensures PrimeraEn(hechos + [g], fecha, orden[a]) < PrimeraEn(hechos + [g], fecha, orden[b])
    {
      PrimeraEnSnoc(hechos, g, fecha, orden[a]);
      PrimeraEnSnoc(hechos, g, fecha, orden[b]);
      assert ClaveAgrupada(hechos, fecha, totales, orden[a]);
      assert ClaveAgrupada(hechos, fecha, totales, orden[b]);
    }
  }

  /** One key after an expense of another day. */
  lemma ClaveOtroDia(hechos: seq<Gasto>, g: Gasto, fecha: string, totales: map<string, real>, c: string)
    requires ClaveAgrupada(hechos, fecha, totales, c)
    requires !EnFecha(g, fecha)
    ensures ClaveAgrupada(hechos + [g], fecha, totales, c)
  {
    Siguiente(hechos, g, fecha, c);
  }

  /** One key after an expense of a category already seen that day. */
  lemma ClaveSuma(hechos: seq<Gasto>, g: Gasto, fecha: string, totales: map<string, real>, c: string)
    requires ClaveAgrupada(hechos, fecha, totales, c)
    requires EnFecha(g, fecha) && CategoriaDe(g) in totales
    ensures ClaveAgrupada(hechos + [g], fecha, totales[CategoriaDe(g) := totales[CategoriaDe(g)] + MontoGasto(g)], c)
  {
    Siguiente(hechos, g, fecha, c);
  }

  /** One key after an expense of a category not seen before that day. */
  lemma ClaveNueva(hechos: seq<Gasto>, g: Gasto, fecha: string, totales: map<string, real>, c: string)
    requires ClaveAgrupada(hechos, fecha, totales, c)
    requires EnFecha(g, fecha) && CategoriaDe(g) !in totales
    ensures ClaveAgrupada(hechos + [g], fecha, totales[CategoriaDe(g) := 0.0 + MontoGasto(g)], c)
  {
    Siguiente(hechos, g, fecha, c);
  }

  /** Grouping one more expense, of another day. */
  lemma OtroDiaAlFinal(hechos: seq<Gasto>, g: Gasto, fecha: string, totales: map<string, real>, orden: seq<string>)
    requires Agrupado(hechos, fecha, totales, orden)
    requires !EnFecha(g, fecha)
    ensures Agrupado(hechos + [g], fecha, totales, orden)
  {
    forall c ensures ClaveAgrupada(hechos + [g], fecha, totales, c) {
      assert ClaveAgrupada(hechos, fecha, totales, c);
      ClaveOtroDia(hechos, g, fecha, totales, c);
    }
    OrdenSeConserva(hechos, g, fecha, totales, orden);
  }

  /** Grouping one more expense of a category already seen that day. */
  lemma SumaAlFinal(hechos: seq<Gasto>, g: Gasto, fecha: string, totales: map<string, real>, orden: seq<string>)
    requires Agrupado(hechos, fecha, totales, orden)
    requires EnFecha(g, fecha) && CategoriaDe(g) in totales
    ensures Agrupado(hechos + [g], fecha, totales[CategoriaDe(g) := totales[CategoriaDe(g)] + MontoGasto(g)], orden)
  {
    var totales' := totales[CategoriaDe(g) := totales[CategoriaDe(g)] + MontoGasto(g)];
    forall c ensures ClaveAgrupada(hechos + [g], fecha, totales', c) {
      assert ClaveAgrupada(hechos, fecha, totales, c);
      ClaveSuma(hechos, g, fecha, totales, c);
    }
    OrdenSeConserva(hechos, g, fecha, totales, orden);
  }

  /** Grouping one more expense, of a category not seen before that day: its
      total starts and it goes last in the key order. */
  lemma NuevaAlFinal(hechos: seq<Gasto>, g: Gasto, fecha: string, totales: map<string, real>, orden: seq<string>)
    requires Agrupado(hechos, fecha, totales, orden)
    requires EnFecha(g, fecha) && CategoriaDe(g) !in totales
    ensures Agrupado(hechos + [g], fecha, totales[CategoriaDe(g) := 0.0 + MontoGasto(g)], orden + [CategoriaDe(g)])
  {
    var totales' := totales[CategoriaDe(g) := 0.0 + MontoGasto(g)];
    forall c ensures ClaveAgrupada(hechos + [g], fecha, totales', c) {
      assert ClaveAgrupada(hechos, fecha, totales, c);
      ClaveNueva(hechos, g, fecha, totales, c);
    }
    OrdenNueva(hechos, g, fecha, totales, orden);
  }

  /** The key order after a new category: it goes last, after every key seen before. */
  lemma OrdenNueva(hechos: seq<Gasto>, g: Gasto, fecha: string, totales: map<string, real>, orden: seq<string>)
    requires Agrupado(hechos, fecha, totales, orden)
    requires EnFecha(g, fecha) && CategoriaDe(g) !in totales
    ensures var totales', orden' := totales[CategoriaDe(g) := 0.0 + MontoGasto(g)], orden + [CategoriaDe(g)];
      && (forall a :: 0 <= a < |orden'| ==> orden'[a] in totales')
      && (forall c :: c in totales' ==> c in orden')
      && (forall a, b :: 0 <= a < b < |orden'| ==>
            PrimeraEn(hechos + [g], fecha, orden'[a]) < PrimeraEn(hechos + [g], fecha, orden'[b]))
  {
    var despues := hechos + [g];
    var cat := CategoriaDe(g);
    var totales', orden' := totales[cat := 0.0 + MontoGasto(g)], orden + [cat];
    forall a | 0 <= a < |orden'| ensures orden'[a] in totales' {
      if a < |orden| {
        assert orden'[a] == orden[a];
      }
    }
    forall c | c in totales' ensures c in orden' {
      if c != cat {
        assert c in orden;
      }
    }
    assert ClaveAgrupada(hechos, fecha, totales, cat);
    Siguiente(hechos, g, fecha, cat);
    forall a, b | 0 <= a < b < |orden'|
      ensures PrimeraEn(despues, fecha, orden'[a]) < PrimeraEn(despues, fecha, orden'[b])
    {
      assert orden'[a] == orden[a];
      Siguiente(hechos, g, fecha, orden[a]);
      assert ClaveAgrupada(hechos, fecha, totales, orden[a]);
      if b < |orden| {
        assert orden'[b] == orden[b];
        Siguiente(hechos, g, fecha, orden[b]);
        assert ClaveAgrupada(hechos, fecha, totales, orden[b]);
      }
    }
  }

  /** The first i + 1 expenses are the first i and then expense i. */
  lemma Prefijo(gastos: seq<Gasto>, i: nat)
    requires i < |gastos|
    ensures gastos[..i + 1] == gastos[..i] + [gastos[i]]
  {
  }

  /** The grouping loop of `analizar_dia`. */
  method Agrupar(gastos: seq<Gasto>, fecha: string) returns (totales: map<string, real>, orden: seq<string>)
    ensures Agrupado(gastos, fecha, totales, orden)
  {
    totales, orden := map[], [];
    ghost var hechos: seq<Gasto> := [];
    var i := 0;
    while i < |gastos|
      invariant 0 <= i <= |gastos|
      invariant hechos == gastos[..i]
      invariant Agrupado(hechos, fecha, totales, orden)
    {
      var g := gastos[i];
      if g.fecha == Some(fecha) {
        var cat := g.categoria.GetOr("General");
        if cat in totales {
          SumaAlFinal(hechos, g, fecha, totales, orden);
          totales := totales[cat := totales[cat] + g.monto.GetOr(0.0)];
        } else {
          NuevaAlFinal(hechos, g, fecha, totales, orden);
          totales := totales[cat := 0.0 + g.monto.GetOr(0.0)];
          orden := orden + [cat];
        }
      } else {
        OtroDiaAlFinal(hechos, g, fecha, totales, orden);
      }
      Prefijo(gastos, i);
      hechos := hechos + [g];
      i := i + 1;
    }
    assert gastos[..i] == gastos;
  }


  /** `max(totales, key=totales.get)`: the position in `orden` of the first
      category whose total is largest. */
  method PrimeroMaximo(totales: map<string, real>, orden: seq<string>) returns (best: nat)
    requires |orden| > 0
    requires forall a :: 0 <= a < |orden| ==> orden[a] in totales
    ensures best < |orden|
    ensures forall j :: 0 <= j < |orden| ==> totales[orden[j]] <= totales[orden[best]]
    ensures forall j :: 0 <= j < best ==> totales[orden[j]] < totales[orden[best]]
  {
    best := 0;
    var k := 1;
    while k < |orden|
      invariant 1 <= k <= |orden|
      invariant 0 <= best < k
      invariant forall j :: 0 <= j < k ==> totales[orden[j]] <= totales[orden[best]]
      invariant forall j :: 0 <= j < best ==> totales[orden[j]] < totales[orden[best]]
    {
      if totales[orden[k]] > totales[orden[best]] {
        best := k;
      }
      k := k + 1;
    }
  }

  /** With no key after grouping, no expense falls on the day. */
  lemma SinClaves(gastos: seq<Gasto>, fecha: string, totales: map<string, real>, orden: seq<string>)
    requires Agrupado(gastos, fecha, totales, orden)
    requires |totales| == 0
    ensures forall j :: 0 <= j < |gastos| ==> !EnFecha(gastos[j], fecha)
  {
    forall j | 0 <= j < |gastos| ensures !EnFecha(gastos[j], fecha) {
      assert ClaveAgrupada(gastos, fecha, totales, CategoriaDe(gastos[j]));
    }
  }

  /** The first key of largest total, over a complete grouping, is the
      category the analyzer must report. */
  lemma PrimeroMaximoEsMasGastado(gastos: seq<Gasto>, fecha: string, totales: map<string, real>, orden: seq<string>, best: nat)
    requires Agrupado(gastos, fecha, totales, orden)
    requires best < |orden|
    requires forall j :: 0 <= j < |orden| ==> totales[orden[j]] <= totales[orden[best]]
    requires forall j :: 0 <= j < best ==> totales[orden[j]] < totales[orden[best]]
    ensures EsMasGastado(gastos, fecha, orden[best], totales[orden[best]])
  {
    var cat := orden[best];
    assert ClaveAgrupada(gastos, fecha, totales, cat);
    forall j | 0 <= j < |gastos| && EnFecha(gastos[j], fecha)
      ensures TotalCategoria(gastos, fecha, CategoriaDe(gastos[j])) <= totales[cat]
      ensures j < PrimeraEn(gastos, fecha, cat) ==> TotalCategoria(gastos, fecha, CategoriaDe(gastos[j])) < totales[cat]
    {
      var c := CategoriaDe(gastos[j]);
      assert ClaveAgrupada(gastos, fecha, totales, c);
      assert c in orden;
      var a :| 0 <= a < |orden| && orden[a] == c;
      if j < PrimeraEn(gastos, fecha, cat) {
        assert a < best;
      }
    }
  }

  /** The day `analizar_dia` looks at: the given date, or today's when it is empty. */
  function DiaConsultado(fecha: string, hoy: string): string {
    if fecha == "" then hoy else fecha
  }

  /** The outcome shown on the analysis screen. */
  datatype Resultado =
    | PermisoDesactivado
    | SinGastos(fecha: string)
    | MasGastado(fecha: string, categoria: string, total: real)

  /** The text of each outcome. */
  function Mensaje(r: Resultado): (m: string)
    ensures |m| > 0
    ensures r.PermisoDesactivado? <==> m[0] == 'P'
    ensures r.SinGastos? <==> m[0] == 'S'
    ensures r.MasGastado? <==> m[0] == 'E'
  {
    match r
    case PermisoDesactivado => "Permiso desactivado."
    case SinGastos(f) => "Sin gastos registrados el " + f + "."
    case MasGastado(f, c, t) =>
      "El " + f + ", gastaste más en '" + c + "': $" + Money(t)
        + ". Sugerencia: fija un tope o busca alternativas."
  }

  /** Two food expenses of 10 and 5 and a transport expense of 8 on one day:
      the analyzer reports food, with 15. */
  lemma EjemploComida()
    ensures var gastos := [
      Gasto(Some(10.0), Some("Food"), Some(""), Some("2024-01-01")),
      Gasto(Some(5.0), Some("Food"), Some(""), Some("2024-01-01")),
      Gasto(Some(8.0), Some("Transport"), Some(""), Some("2024-01-01"))];
      EsMasGastado(gastos, "2024-01-01", "Food", 15.0)
  {
    var gastos := [
      Gasto(Some(10.0), Some("Food"), Some(""), Some("2024-01-01")),
      Gasto(Some(5.0), Some("Food"), Some(""), Some("2024-01-01")),
      Gasto(Some(8.0), Some("Transport"), Some(""), Some("2024-01-01"))];
    var a, b, c := gastos[0], gastos[1], gastos[2];
    assert gastos == [] + [a] + [b] + [c];
    var comida, transporte := Aporte("2024-01-01", "Food"), Aporte("2024-01-01", "Transport");
    SumOfAppend([], a, comida);
    SumOfAppend([] + [a], b, comida);
    SumOfAppend([] + [a] + [b], c, comida);
    SumOfAppend([], a, transporte);
    SumOfAppend([] + [a], b, transporte);
    SumOfAppend([] + [a] + [b], c, transporte);
    assert TotalCategoria(gastos, "2024-01-01", "Food") == 15.0;
    assert TotalCategoria(gastos, "2024-01-01", "Transport") == 8.0;
    assert PrimeraEn(gastos, "2024-01-01", "Food") == 0;
  }
}
