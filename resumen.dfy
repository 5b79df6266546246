/** The derived views the menu and list screens show: the balance, the text
    summary of each list, the tip of the day and the permission label. */
module Resumen {
  import opened Registros

  // ----------------- Sums and the balance -----------------

  /** Python's `sum(f(x) for x in s)`, over exact reals. */
  function SumOf<T>(s: seq<T>, f: T -> real): real
    decreases |s|
  {
    if s == [] then 0.0 else SumOf(s[..|s| - 1], f) + f(s[|s| - 1])
  }

  lemma SumOfAppend<T>(s: seq<T>, x: T, f: T -> real)
    ensures SumOf(s + [x], f) == SumOf(s, f) + f(x)
  {
    assert (s + [x])[..|s|] == s;
  }

  lemma {:induction false} SumOfConcat<T>(a: seq<T>, b: seq<T>, f: T -> real)
    ensures SumOf(a + b, f) == SumOf(a, f) + SumOf(b, f)
    decreases |b|
  {
    if b == [] {
      assert a + b == a;
    } else {
      var b' := b[..|b| - 1];
      assert b == b' + [b[|b| - 1]];
      assert a + b == (a + b') + [b[|b| - 1]];
      SumOfConcat(a, b', f);
      SumOfAppend(a + b', b[|b| - 1], f);
      SumOfAppend(b', b[|b| - 1], f);
    }
  }

  /** A sum does not depend on the order of its terms. */
  lemma {:induction false} SumOfPermutation<T>(a: seq<T>, b: seq<T>, f: T -> real)
    requires multiset(a) == multiset(b)
    ensures SumOf(a, f) == SumOf(b, f)
    decreases |a|
  {
    if a == [] {
      assert |b| == |multiset(b)| == 0;
    } else {
      var x := a[|a| - 1];
      var a' := a[..|a| - 1];
      assert a == a' + [x];
      assert x in multiset(b);
      var i :| 0 <= i < |b| && b[i] == x;
      var b' := b[..i] + b[i + 1..];
      assert b == b[..i] + [x] + b[i + 1..];
      assert multiset(a') == multiset(a) - multiset{x};
      assert multiset(b') == multiset(b) - multiset{x};
      SumOfPermutation(a', b', f);
      SumOfAppend(a', x, f);
      SumOfConcat(b[..i] + [x], b[i + 1..], f);
      SumOfAppend(b[..i], x, f);
      SumOfConcat(b[..i], b[i + 1..], f);
    }
  }

  /** `g.get("monto", 0)`: a missing amount counts as 0. */
  function MontoGasto(g: Gasto): real { g.monto.GetOr(0.0) }

  function MontoIngreso(i: Ingreso): real { i.monto.GetOr(0.0) }

  /** The menu total: income amounts minus expense amounts. */
  function Balance(d: Documento): real {
    SumOf(d.ingresos, MontoIngreso) - SumOf(d.gastos, MontoGasto)
  }

  /** Appending an expense lowers the balance by exactly its amount. */
  lemma BalanceAddGasto(d: Documento, g: Gasto)
    ensures Balance(d.(gastos := d.gastos + [g])) == Balance(d) - MontoGasto(g)
  {
    SumOfAppend(d.gastos, g, MontoGasto);
  }

  /** Appending an income raises the balance by exactly its amount. */
  lemma BalanceAddIngreso(d: Documento, i: Ingreso)
    ensures Balance(d.(ingresos := d.ingresos + [i])) == Balance(d) + MontoIngreso(i)
  {
    SumOfAppend(d.ingresos, i, MontoIngreso);
  }

  /** The balance depends only on which incomes and expenses were recorded,
      not on the order they were recorded in. */
  lemma BalanceOrderIndependent(d: Documento, e: Documento)
    requires multiset(d.gastos) == multiset(e.gastos)
    requires multiset(d.ingresos) == multiset(e.ingresos)
    ensures Balance(d) == Balance(e)
  {
    SumOfPermutation(d.gastos, e.gastos, MontoGasto);
    SumOfPermutation(d.ingresos, e.ingresos, MontoIngreso);
  }

  // ----------------- The last-100 window -----------------

  /** Python's `s[start:]`: a negative start counts from the end, and an
      out-of-range start is clamped to the sequence. */
  function SliceFrom<T>(s: seq<T>, start: int): seq<T> {
    var k := if start < 0 then (if |s| + start < 0 then 0 else |s| + start)
             else (if start > |s| then |s| else start);
    s[k..]
  }

  const VENTANA: nat := 100

  /** `s[-100:]`: the last min(|s|, 100) elements, in their original order. */
  function Ultimos<T>(s: seq<T>): (w: seq<T>)
    ensures |w| == if |s| < VENTANA then |s| else VENTANA
    ensures w == s[|s| - |w|..]
  {
    SliceFrom(s, -(VENTANA as int))
  }

  /** One display line per record, as the list comprehensions build them. */
  function Lineas<T>(s: seq<T>, linea: T -> string): seq<string> {
    seq(|s|, i requires 0 <= i < |s| => linea(s[i]))
  }

  /** Formatting every record and then taking the window is formatting the window. */
  lemma UltimosLineas<T>(s: seq<T>, linea: T -> string)
    ensures Ultimos(Lineas(s, linea)) == Lineas(Ultimos(s), linea)
  {
    var w := Ultimos(s);
    var u := Ultimos(Lineas(s, linea));
    assert |u| == |w|;
    forall k | 0 <= k < |w| ensures u[k] == Lineas(w, linea)[k] {
      assert w[k] == s[|s| - |w| + k];
    }
  }

  // ----------------- Joining and splitting lines -----------------

  /** `"\n".join(lines)`. */
  function Join(lines: seq<string>): string
    decreases |lines|
  {
    if |lines| == 0 then ""
    else if |lines| == 1 then lines[0]
    else lines[0] + "\n" + Join(lines[1..])
  }

  /** Index of the first newline of `s`, or |s| when there is none. */
  function NewlineAt(s: string): (i: nat)
    ensures i <= |s|
    ensures i < |s| ==> s[i] == '\n'
    ensures forall j :: 0 <= j < i ==> s[j] != '\n'
    decreases |s|
  {
    if s == [] then 0 else if s[0] == '\n' then 0 else 1 + NewlineAt(s[1..])
  }

  /** `s.split("\n")`: the pieces between newlines, an empty string giving [""]. */
  function Split(s: string): seq<string>
    decreases |s|
  {
    var i := NewlineAt(s);
    if i == |s| then [s] else [s[..i]] + Split(s[i + 1..])
  }

  /** Splitting a line without newlines, a newline, and a rest gives that line
      followed by the pieces of the rest. */
  lemma SplitCons(l: string, t: string)
    requires '\n' !in l
    ensures Split(l + "\n" + t) == [l] + Split(t)
  {
    var s := l + "\n" + t;
    assert s[|l|] == '\n';
    assert forall j :: 0 <= j < |l| ==> s[j] == l[j];
    assert NewlineAt(s) == |l|;
    assert s[..|l|] == l;
    assert s[|l| + 1..] == t;
  }

  /** Splitting at newlines recovers lines that contain none: a joined text
      has exactly one line per element. */
  lemma {:induction false} SplitJoin(lines: seq<string>)
    requires |lines| > 0
    requires forall k :: 0 <= k < |lines| ==> '\n' !in lines[k]
    ensures Split(Join(lines)) == lines
    decreases |lines|
  {
    if |lines| > 1 {
      SplitCons(lines[0], Join(lines[1..]));
      SplitJoin(lines[1..]);
      assert lines == [lines[0]] + lines[1..];
    }
  }

  lemma {:induction false} JoinNonEmpty(lines: seq<string>)
    requires |lines| > 0 && lines[0] != ""
    ensures Join(lines) != ""
  {
    if |lines| > 1 {
      assert |Join(lines)| >= |lines[0]|;
    }
  }

  // ----------------- Amounts as text -----------------

  function Digit(d: nat): (c: char)
    requires d < 10
    ensures '0' <= c <= '9' && c as int - '0' as int == d
  {
    ('0' as int + d) as char
  }

  /** Decimal digits of `n`, most significant first. */
  function Digitos(n: nat): (r: string)
    ensures |r| >= 1
    ensures forall k :: 0 <= k < |r| ==> '0' <= r[k] <= '9'
    decreases n
  {
    if n < 10 then [Digit(n)] else Digitos(n / 10) + [Digit(n % 10)]
  }

  /** `f"{x:.2f}"`: the amount rounded to cents, half up, with a leading '-'
      when the rounded amount is negative. */
  function Money(x: real): (r: string)
    ensures |r| >= 4 && r[|r| - 3] == '.'
    ensures '0' <= r[|r| - 2] <= '9' && '0' <= r[|r| - 1] <= '9'
    ensures forall k :: 0 <= k < |r| ==> r[k] == '-' || r[k] == '.' || '0' <= r[k] <= '9'
    ensures r[0] == '-' || '0' <= r[0] <= '9'
    ensures forall k :: 0 < k < |r| - 3 ==> '0' <= r[k] <= '9'
    ensures r[0] == '-' ==> |r| >= 5
  {
    TextoCentavos(Redondeo(x))
  }

  /** The amount in whole cents, rounded half up. */
  function Redondeo(x: real): int {
    (x * 100.0 + 0.5).Floor
  }

  /** `c` cents as text: a '-' when negative, then the unsigned digits. */
  function TextoCentavos(c: int): string {
    (if c < 0 then "-" else "") + TextoSinSigno(if c < 0 then -c else c)
  }

  /** The number a string of decimal digits spells, most significant first. */
  function ValorDigitos(s: string): int
    decreases |s|
  {
    if s == [] then 0 else ValorDigitos(s[..|s| - 1]) * 10 + (s[|s| - 1] as int - '0' as int)
  }

  lemma {:induction false} DigitosValor(n: nat)
    ensures ValorDigitos(Digitos(n)) == n
    decreases n
  {
    if n >= 10 {
      var r := Digitos(n);
      assert r[..|r| - 1] == Digitos(n / 10);
      DigitosValor(n / 10);
    }
  }

  /** Reads unsigned `digits.dd` back as a whole number of cents. */
  function Magnitud(t: string): int {
    if |t| < 3 then 0 else ValorDigitos(t[..|t| - 3]) * 100 + ValorDigitos(t[|t| - 2..])
  }

  /** Reads an amount written as `[-]digits.dd` back as a whole number of cents. */
  function Centavos(r: string): int {
    if |r| > 0 && r[0] == '-' then -Magnitud(r[1..]) else Magnitud(r)
  }

  /** The unsigned text of `a` cents: whole part, point, two digits. */
  function TextoSinSigno(a: nat): string {
    Digitos(a / 100) + "." + [Digit(a % 100 / 10), Digit(a % 100 % 10)]
  }

  lemma DosDigitos(p: nat, q: nat)
    requires p < 10 && q < 10
    ensures ValorDigitos([Digit(p), Digit(q)]) == 10 * p + q
  {
    assert [Digit(p)][..0] == [];
    assert ValorDigitos([Digit(p)]) == p;
    assert [Digit(p), Digit(q)][..1] == [Digit(p)];
  }

  lemma MagnitudTexto(a: nat)
    ensures Magnitud(TextoSinSigno(a)) == a
    ensures TextoSinSigno(a)[0] != '-'
  {
    var e := Digitos(a / 100);
    var dd := [Digit(a % 100 / 10), Digit(a % 100 % 10)];
    var t := TextoSinSigno(a);
    DigitosValor(a / 100);
    assert t[..|t| - 3] == e;
    assert t[|t| - 2..] == dd;
    DosDigitos(a % 100 / 10, a % 100 % 10);
    assert t[0] == e[0];
  }

  lemma CentavosSigno(neg: bool, t: string)
    requires |t| > 0 && t[0] != '-'
    ensures Centavos((if neg then "-" else "") + t) == if neg then -Magnitud(t) else Magnitud(t)
  {
    if neg {
      assert ("-" + t)[1..] == t;
    } else {
      assert "" + t == t;
    }
  }

  /** The text of an amount reads back as the amount rounded to the nearest cent, half up. */
  lemma MoneyCentavos(x: real)
    ensures Centavos(Money(x)) == Redondeo(x)
  {
    var c := Redondeo(x);
    var a: nat := if c < 0 then -c else c;
    MagnitudTexto(a);
    CentavosSigno(c < 0, TextoSinSigno(a));
  }

  /** Twelve and a half is written "12.50". */
  lemma MoneyDoceYMedio()
    ensures Money(12.5) == "12.50"
  {
    assert Redondeo(12.5) == 1250;
    assert Digitos(12) == "12" by {
      assert Digitos(1) == "1";
    }
  }

  // ----------------- Summaries -----------------

  /** The joined lines of the last 100 records, or the placeholder when that text is empty. */
  function Resumen<T>(s: seq<T>, linea: T -> string, vacio: string): string {
    var txt := Join(Ultimos(Lineas(s, linea)));
    if txt == "" then vacio else txt
  }

  /** An empty list shows its placeholder; otherwise the summary has exactly one
      line per record among the last min(n, 100), oldest first, provided no
      record's line is empty or contains a newline. */
  lemma ResumenCubreUltimos<T>(s: seq<T>, linea: T -> string, vacio: string)
    requires forall i :: 0 <= i < |s| ==> linea(s[i]) != "" && '\n' !in linea(s[i])
    ensures s == [] ==> Resumen(s, linea, vacio) == vacio
    ensures s != [] ==> Split(Resumen(s, linea, vacio)) == Lineas(Ultimos(s), linea)
  {
    if s != [] {
      var w := Ultimos(s);
      UltimosLineas(s, linea);
      var ls := Lineas(w, linea);
      forall k | 0 <= k < |ls| ensures ls[k] != "" && '\n' !in ls[k] {
        assert w[k] == s[|s| - |w| + k];
      }
      JoinNonEmpty(ls);
      SplitJoin(ls);
    }
  }

  predicate SinSalto(o: Option<string>) {
    o.None? || '\n' !in o.value
  }

  function LineaGasto(g: Gasto): string {
    g.fecha.GetOr("") + " - " + g.categoria.GetOr("?") + ": $" + Money(MontoGasto(g)) + " | " + g.nota.GetOr("")
  }

  function LineaIngreso(i: Ingreso): string {
    i.fecha.GetOr("") + " - " + i.fuente.GetOr("?") + ": $" + Money(MontoIngreso(i)) + " | " + i.nota.GetOr("")
  }

  function LineaDeudor(d: Deudor): string {
    d.nombre.GetOr("?") + " debe $" + Money(d.monto.GetOr(0.0)) + " | paga: " + d.fechaPago.GetOr("?")
      + " | excusa: " + d.excusa.GetOr("")
  }

  function LineaMeta(m: Meta): string {
    m.titulo.GetOr("?") + " → objetivo: $" + Money(m.objetivo.GetOr(0.0))
  }

  function ResumenGastos(s: seq<Gasto>): string { Resumen(s, LineaGasto, "Sin gastos aún.") }

  function ResumenIngresos(s: seq<Ingreso>): string { Resumen(s, LineaIngreso, "Sin ingresos aún.") }

  function ResumenDeudores(s: seq<Deudor>): string { Resumen(s, LineaDeudor, "Sin deudores.") }

  function ResumenMetas(s: seq<Meta>): string { Resumen(s, LineaMeta, "Sin metas aún.") }

  lemma MoneySinSalto(x: real)
    ensures '\n' !in Money(x)
  {
  }

  lemma ResumenGastosCubre(s: seq<Gasto>)
    requires forall i :: 0 <= i < |s| ==> SinSalto(s[i].fecha) && SinSalto(s[i].categoria) && SinSalto(s[i].nota)
    ensures s == [] ==> ResumenGastos(s) == "Sin gastos aún."
    ensures s != [] ==> Split(ResumenGastos(s)) == Lineas(Ultimos(s), LineaGasto)
  {
    forall i | 0 <= i < |s| ensures LineaGasto(s[i]) != "" && '\n' !in LineaGasto(s[i]) {
      MoneySinSalto(MontoGasto(s[i]));
    }
    ResumenCubreUltimos(s, LineaGasto, "Sin gastos aún.");
  }

  lemma ResumenIngresosCubre(s: seq<Ingreso>)
    requires forall i :: 0 <= i < |s| ==> SinSalto(s[i].fecha) && SinSalto(s[i].fuente) && SinSalto(s[i].nota)
    ensures s == [] ==> ResumenIngresos(s) == "Sin ingresos aún."
    ensures s != [] ==> Split(ResumenIngresos(s)) == Lineas(Ultimos(s), LineaIngreso)
  {
    forall i | 0 <= i < |s| ensures LineaIngreso(s[i]) != "" && '\n' !in LineaIngreso(s[i]) {
      MoneySinSalto(MontoIngreso(s[i]));
    }
    ResumenCubreUltimos(s, LineaIngreso, "Sin ingresos aún.");
  }

  lemma ResumenDeudoresCubre(s: seq<Deudor>)
    requires forall i :: 0 <= i < |s| ==> SinSalto(s[i].nombre) && SinSalto(s[i].fechaPago) && SinSalto(s[i].excusa)
    ensures s == [] ==> ResumenDeudores(s) == "Sin deudores."
    ensures s != [] ==> Split(ResumenDeudores(s)) == Lineas(Ultimos(s), LineaDeudor)
  {
    forall i | 0 <= i < |s| ensures LineaDeudor(s[i]) != "" && '\n' !in LineaDeudor(s[i]) {
      var d := s[i];
      MoneySinSalto(d.monto.GetOr(0.0));
      var partes := [d.nombre.GetOr("?"), " debe $", Money(d.monto.GetOr(0.0)), " | paga: ",
                     d.fechaPago.GetOr("?"), " | excusa: ", d.excusa.GetOr("")];
      assert forall k :: 0 <= k < |partes| ==> '\n' !in partes[k];
      assert LineaDeudor(d) == partes[0] + partes[1] + partes[2] + partes[3] + partes[4] + partes[5] + partes[6];
    }
    ResumenCubreUltimos(s, LineaDeudor, "Sin deudores.");
  }

  lemma ResumenMetasCubre(s: seq<Meta>)
    requires forall i :: 0 <= i < |s| ==> SinSalto(s[i].titulo)
    ensures s == [] ==> ResumenMetas(s) == "Sin metas aún."
    ensures s != [] ==> Split(ResumenMetas(s)) == Lineas(Ultimos(s), LineaMeta)
  {
    forall i | 0 <= i < |s| ensures LineaMeta(s[i]) != "" && '\n' !in LineaMeta(s[i]) {
      MoneySinSalto(s[i].objetivo.GetOr(0.0));
    }
    ResumenCubreUltimos(s, LineaMeta, "Sin metas aún.");
  }

  // ----------------- Tip of the day and permission label -----------------

  const TIPS: seq<string> := [
    "Tip: Registra primero tus ingresos fijos del mes.",
    "Tip: Un café al día suma más de lo que parece ☕",
    "Tip: Define un % para ahorro automático.",
    "Tip: Paga tus deudas más chicas primero.",
    "Tip: Revisa tus suscripciones mensuales."
  ]

  /** `ordinal % len(tips)`; Python's `%` and Dafny's agree for a positive divisor. */
  function TipIndice(ordinal: int): (i: nat)
    ensures i < |TIPS|
  {
    ordinal % |TIPS|
  }

  /** The tip shown for the day whose proleptic Gregorian ordinal is `ordinal`. */
  function TipDelDia(ordinal: int): string {
    TIPS[TipIndice(ordinal)]
  }

  /** The tip repeats every |TIPS| days. */
  lemma TipPeriodico(ordinal: int)
    ensures TipDelDia(ordinal + |TIPS|) == TipDelDia(ordinal)
  {
    assert (ordinal + 5) % 5 == ordinal % 5;
  }

  /** Any |TIPS| consecutive days show every tip. */
  lemma TipsCubreCiclo(ordinal: int, t: string)
    requires t in TIPS
    ensures exists day :: ordinal <= day < ordinal + |TIPS| && TipDelDia(day) == t
  {
    var i :| 0 <= i < |TIPS| && TIPS[i] == t;
    var k := (i - ordinal % 5) % 5;
    assert (ordinal + k) % 5 == i;
    assert TipDelDia(ordinal + k) == t;
  }

  /** The label of the analysis screen. */
  function PermisoTexto(perm: bool): (r: string)
    ensures r == "ON" <==> perm
    ensures r == "OFF" <==> !perm
  {
    if perm then "ON" else "OFF"
  }

  /** What the screens show after every mutation. */
  datatype Pantalla = Pantalla(
    total: real,
    tip: string,
    gastosResumen: string,
    ingresosResumen: string,
    deudoresResumen: string,
    metasResumen: string,
    permisoTexto: string)

  /** Recomputes every view from the document; `ordinal` is today's date ordinal. */
  function Refrescar(d: Documento, ordinal: int): (p: Pantalla)
    ensures p.total == Balance(d)
    ensures p.tip in TIPS
    ensures p.permisoTexto == "ON" <==> d.analisisPerm
  {
    Pantalla(Balance(d), TipDelDia(ordinal), ResumenGastos(d.gastos), ResumenIngresos(d.ingresos),
             ResumenDeudores(d.deudores), ResumenMetas(d.metas), PermisoTexto(d.analisisPerm))
  }

  /** Flipping the permission changes only the label among all the views. */
  lemma RefrescarSoloPermiso(d: Documento, perm: bool, ordinal: int)
    ensures Refrescar(d.(analisisPerm := perm), ordinal) == Refrescar(d, ordinal).(permisoTexto := PermisoTexto(perm))
  {
  }
}
