/** The application object: it owns the in-memory document, changes it through
    the add and toggle actions, writes it out after every change, and runs the
    daily analysis. */
module Gestor {
  import opened Registros
  import opened Resumen
  import opened Analisis

  class GestorApp {
    var gastos: seq<Gasto>
    var ingresos: seq<Ingreso>
    var deudores: seq<Deudor>
    var metas: seq<Meta>
    var analisisPerm: bool

    /** The date ordinal of the last time the screens were refreshed. */
    var ordinalVista: int
    /** The analysis screen's result text. */
    var resultado: string

    /** The document as the last save wrote it. */
    ghost var persisted: Documento

    /** `float(text)`: the amount a form field coerces to, or None when coercion fails. */
    const parse: string -> Option<real>

    /** `self.datos`. */
    function Datos(): Documento
      reads this`gastos, this`ingresos, this`deudores, this`metas, this`analisisPerm
    {
      Documento(gastos, ingresos, deudores, metas, analisisPerm)
    }

    /** What the menu, summary and analysis screens show: the views of the
        document as of the last refresh. */
    function Vista(): Pantalla
      reads this`gastos, this`ingresos, this`deudores, this`metas, this`analisisPerm, this`ordinalVista
    {
      Refrescar(Datos(), ordinalVista)
    }

    /** First run: no stored document exists, so the default one is written,
        used, and shown; `ordinal` is today's date ordinal. */
    constructor (parse: string -> Option<real>, ordinal: int)
      ensures Datos() == DEFAULT_DATA && persisted == DEFAULT_DATA
      ensures gastos == [] && ingresos == [] && deudores == [] && metas == [] && !analisisPerm
      ensures ordinalVista == ordinal && resultado == ""
      ensures this.parse == parse
    {
      gastos, ingresos, deudores, metas, analisisPerm := [], [], [], [], false;
      persisted := DEFAULT_DATA;
      ordinalVista := ordinal;
      resultado := "";
      this.parse := parse;
    }

    /** Later runs: the stored document was read back and becomes the in-memory one. */
    constructor Reanudar(parse: string -> Option<real>, guardado: Documento, ordinal: int)
      ensures Datos() == guardado && persisted == guardado
      ensures ordinalVista == ordinal && resultado == ""
      ensures this.parse == parse
    {
      gastos, ingresos, deudores, metas := guardado.gastos, guardado.ingresos, guardado.deudores, guardado.metas;
      analisisPerm := guardado.analisisPerm;
      persisted := guardado;
      ordinalVista := ordinal;
      resultado := "";
      this.parse := parse;
    }

    /** `_actualizar_totales_y_tips`: every view is recomputed from the document. */
    method Actualizar(ordinal: int)
      modifies this`ordinalVista
      ensures ordinalVista == ordinal
    {
      ordinalVista := ordinal;
    }

    /** `_guardar`: the whole document is written out. */
    method Guardar()
      modifies this`persisted
      ensures persisted == Datos()
    {
      persisted := Datos();
    }

    method AddGasto(monto: string, categoria: string, nota: string, fecha: string, hoy: string, ordinal: int)
      modifies this`gastos, this`persisted, this`ordinalVista
      ensures parse(monto).None? ==>
        Datos() == old(Datos()) && persisted == old(persisted) && ordinalVista == old(ordinalVista)
      ensures parse(monto).Some? ==>
        && gastos == old(gastos) + [NuevoGasto(parse(monto).value, categoria, nota, fecha, hoy)]
        && ingresos == old(ingresos) && deudores == old(deudores) && metas == old(metas)
        && analisisPerm == old(analisisPerm)
        && persisted == Datos()
        && ordinalVista == ordinal
        && Balance(Datos()) == Balance(old(Datos())) - parse(monto).value
    {
      var m := parse(monto);
      if m.None? {
        return;
      }
      var g := NuevoGasto(m.value, categoria, nota, fecha, hoy);
      BalanceAddGasto(Datos(), g);
      gastos := gastos + [g];
      Guardar();
      Actualizar(ordinal);
    }

    method AddIngreso(monto: string, fuente: string, nota: string, fecha: string, hoy: string, ordinal: int)
      modifies this`ingresos, this`persisted, this`ordinalVista
      ensures parse(monto).None? ==>
        Datos() == old(Datos()) && persisted == old(persisted) && ordinalVista == old(ordinalVista)
      ensures parse(monto).Some? ==>
        && ingresos == old(ingresos) + [NuevoIngreso(parse(monto).value, fuente, nota, fecha, hoy)]
        && gastos == old(gastos) && deudores == old(deudores) && metas == old(metas)
        && analisisPerm == old(analisisPerm)
        && persisted == Datos()
        && ordinalVista == ordinal
        && Balance(Datos()) == Balance(old(Datos())) + parse(monto).value
    {
      var m := parse(monto);
      if m.None? {
        return;
      }
      var i := NuevoIngreso(m.value, fuente, nota, fecha, hoy);
      BalanceAddIngreso(Datos(), i);
      ingresos := ingresos + [i];
      Guardar();
      Actualizar(ordinal);
    }

    method AddDeudor(nombre: string, monto: string, fechaPago: string, excusa: string, ordinal: int)
      modifies this`deudores, this`persisted, this`ordinalVista
      ensures parse(monto).None? ==>
        Datos() == old(Datos()) && persisted == old(persisted) && ordinalVista == old(ordinalVista)
      ensures parse(monto).Some? ==>
        && deudores == old(deudores) + [NuevoDeudor(nombre, parse(monto).value, fechaPago, excusa)]
        && gastos == old(gastos) && ingresos == old(ingresos) && metas == old(metas)
        && analisisPerm == old(analisisPerm)
        && persisted == Datos()
        && ordinalVista == ordinal
        && Balance(Datos()) == Balance(old(Datos()))
    {
      var m := parse(monto);
      if m.None? {
        return;
      }
      deudores := deudores + [NuevoDeudor(nombre, m.value, fechaPago, excusa)];
      Guardar();
      Actualizar(ordinal);
    }

    method AddMeta(titulo: string, objetivo: string, ordinal: int)
      modifies this`metas, this`persisted, this`ordinalVista
      ensures parse(objetivo).None? ==>
        Datos() == old(Datos()) && persisted == old(persisted) && ordinalVista == old(ordinalVista)
      ensures parse(objetivo).Some? ==>
        && metas == old(metas) + [NuevaMeta(titulo, parse(objetivo).value)]
        && gastos == old(gastos) && ingresos == old(ingresos) && deudores == old(deudores)
        && analisisPerm == old(analisisPerm)
        && persisted == Datos()
        && ordinalVista == ordinal
        && Balance(Datos()) == Balance(old(Datos()))
    {
      var m := parse(objetivo);
      if m.None? {
        return;
      }
      metas := metas + [NuevaMeta(titulo, m.value)];
      Guardar();
      Actualizar(ordinal);
    }

    /** Flips the permission and saves. Only the permission label is redrawn:
        the other views keep the last refresh, which RefrescarSoloPermiso
        shows to be the same as redrawing everything. */
    method ToggleAnalisis()
      modifies this`analisisPerm, this`persisted
      ensures Datos() == old(Datos()).(analisisPerm := !old(analisisPerm))
      ensures persisted == Datos()
      ensures ordinalVista == old(ordinalVista)
    {
      analisisPerm := !analisisPerm;
      Guardar();
    }

    /** `analizar_dia`: sums the day's expenses per category in a dictionary
        that keeps insertion order, then takes the first key of largest total. */
    method AnalizarDia(fecha: string, hoy: string) returns (res: Resultado)
      modifies this`resultado
      ensures resultado == Mensaje(res)
      ensures !analisisPerm ==> res == PermisoDesactivado
      ensures analisisPerm && (forall j :: 0 <= j < |gastos| ==> !EnFecha(gastos[j], DiaConsultado(fecha, hoy))) ==>
                res == SinGastos(DiaConsultado(fecha, hoy))
      ensures analisisPerm && (exists j :: 0 <= j < |gastos| && EnFecha(gastos[j], DiaConsultado(fecha, hoy))) ==>
                && res.MasGastado? && res.fecha == DiaConsultado(fecha, hoy)
                && EsMasGastado(gastos, res.fecha, res.categoria, res.total)
    {
      if !analisisPerm {
        res := PermisoDesactivado;
        resultado := Mensaje(res);
        return;
      }
      var f := if fecha == "" then hoy else fecha;
      var totales, orden := Agrupar(gastos, f);
      if |totales| == 0 {
        SinClaves(gastos, f, totales, orden);
        res := SinGastos(f);
        resultado := Mensaje(res);
        return;
      }
      var best := PrimeroMaximo(totales, orden);
      var cat := orden[best];
      PrimeroMaximoEsMasGastado(gastos, f, totales, orden, best);
      res := MasGastado(f, cat, totales[cat]);
      resultado := Mensaje(res);
    }
  }

  /** Toggling twice leaves the permission as it was (the saved copy follows). */
  method ToggleTwice(app: GestorApp)
    modifies app`analisisPerm, app`persisted
    ensures app.Datos() == old(app.Datos()) && app.persisted == app.Datos()
  {
    app.ToggleAnalisis();
    app.ToggleAnalisis();
  }
}
