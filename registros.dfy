/** The ledger's record model: the four kinds of record, the document that holds
    them together with the analysis permission flag, the document a first run
    starts from, and the records the input forms build. */
module Registros {

  datatype Option<+T> = None | Some(value: T) {
    /** Python's `d.get(key, default)`: the stored value, or the default when the key is absent. */
    function GetOr(default: T): T {
      match this
      case Some(v) => v
      case None => default
    }
  }

  /* Every field of a stored record is optional: a document read back from storage
     is not checked field by field, and each reader supplies its own default. */

  datatype Gasto = Gasto(monto: Option<real>, categoria: Option<string>, nota: Option<string>, fecha: Option<string>)

  datatype Ingreso = Ingreso(monto: Option<real>, fuente: Option<string>, nota: Option<string>, fecha: Option<string>)

  datatype Deudor = Deudor(nombre: Option<string>, monto: Option<real>, fechaPago: Option<string>, excusa: Option<string>)

  datatype Meta = Meta(titulo: Option<string>, objetivo: Option<real>)

  /** The whole persisted document: four append-only lists and the permission flag. */
  datatype Documento = Documento(
    gastos: seq<Gasto>,
    ingresos: seq<Ingreso>,
    deudores: seq<Deudor>,
    metas: seq<Meta>,
    analisisPerm: bool)

  /** The document of a first run. */
  const DEFAULT_DATA: Documento := Documento([], [], [], [], false)

  /** Python's `s or d` on a text argument: the empty string is falsy. */
  function Or(s: string, d: string): string {
    if s == "" then d else s
  }

  /** The record `add_gasto` appends for an amount that coerced to `monto`:
      category and note default when empty, and an empty date becomes today's. */
  function NuevoGasto(monto: real, categoria: string, nota: string, fecha: string, hoy: string): (g: Gasto)
    ensures g.monto == Some(monto) && g.nota == Some(nota)
    ensures g.categoria.Some? && g.categoria.value != ""
    ensures categoria != "" ==> g.categoria == Some(categoria)
    ensures categoria == "" ==> g.categoria == Some("General")
    ensures fecha != "" ==> g.fecha == Some(fecha)
    ensures fecha == "" ==> g.fecha == Some(hoy)
  {
    Gasto(Some(monto), Some(Or(categoria, "General")), Some(Or(nota, "")), Some(if fecha == "" then hoy else fecha))
  }

  /** The record `add_ingreso` appends: the source defaults to "Ingreso",
      and an empty date becomes today's. */
  function NuevoIngreso(monto: real, fuente: string, nota: string, fecha: string, hoy: string): (i: Ingreso)
    ensures i.monto == Some(monto) && i.nota == Some(nota)
    ensures i.fuente.Some? && i.fuente.value != ""
    ensures fuente != "" ==> i.fuente == Some(fuente)
    ensures fuente == "" ==> i.fuente == Some("Ingreso")
    ensures fecha != "" ==> i.fecha == Some(fecha)
    ensures fecha == "" ==> i.fecha == Some(hoy)
  {
    Ingreso(Some(monto), Some(Or(fuente, "Ingreso")), Some(Or(nota, "")), Some(if fecha == "" then hoy else fecha))
  }

  /** The record `add_deudor` appends: the name defaults to "Sin nombre" and the
      payment date to "?". */
  function NuevoDeudor(nombre: string, monto: real, fechaPago: string, excusa: string): (d: Deudor)
    ensures d.monto == Some(monto) && d.excusa == Some(excusa)
    ensures d.nombre.Some? && d.nombre.value != ""
    ensures nombre != "" ==> d.nombre == Some(nombre)
    ensures nombre == "" ==> d.nombre == Some("Sin nombre")
    ensures fechaPago != "" ==> d.fechaPago == Some(fechaPago)
    ensures fechaPago == "" ==> d.fechaPago == Some("?")
  {
    Deudor(Some(Or(nombre, "Sin nombre")), Some(monto), Some(Or(fechaPago, "?")), Some(Or(excusa, "")))
  }

  /** The record `add_meta` appends: the title defaults to "Meta". */
  function NuevaMeta(titulo: string, objetivo: real): (m: Meta)
    ensures m.objetivo == Some(objetivo)
    ensures m.titulo.Some? && m.titulo.value != ""
    ensures titulo != "" ==> m.titulo == Some(titulo)
    ensures titulo == "" ==> m.titulo == Some("Meta")
  {
    Meta(Some(Or(titulo, "Meta")), Some(objetivo))
  }
}
