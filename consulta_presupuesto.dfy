/**
 * The budget consultation screen (`src/views/presupuestos/ConsultaPresupuesto.tsx`): the
 * list filter, the row colouring, the detail subtotal and the selection callbacks. Its row
 * toggle is `Consultas.Seleccion`.
 */
module ConsultaPresupuesto {
  import opened JsStrings
  import opened Search
  import opened Consultas
  import Recibos

  /** A budget as the list receives it (the fields this screen computes with). */
  datatype Presupuesto = Presupuesto(
    codigo: int, cliente: string, vendedor: string, factura: string, estado_desc: string,
    total: real, descuento: real)

  /** The screen's filters; the invoice filter has no input, so it stays empty. */
  datatype Filtros = Filtros(vendedor: string, cliente: string, factura: string, id: string)

  const FacturaFiltro := ""

  /** A budget is kept when vendor, client and invoice contain their filters ignoring case, and its code contains the id filter. */
  predicate Coincide(f: Filtros, p: Presupuesto) {
    && Contiene(p.vendedor, f.vendedor)
    && Contiene(p.cliente, f.cliente)
    && Contiene(p.factura, f.factura)
    && Includes(IntToString(p.codigo), f.id)
  }

  function CoincideCon(f: Filtros): Presupuesto -> bool { p => Coincide(f, p) }

  /** `filteredPresupuesto`: exactly the budgets that pass every filter, in list order. */
  function FilteredPresupuesto(presupuestos: seq<Presupuesto>, f: Filtros): (r: seq<Presupuesto>)
    ensures forall p :: p in r ==> p in presupuestos && Coincide(f, p)
    ensures forall p :: p in presupuestos && Coincide(f, p) ==> p in r
    ensures IsSubsequence(r, presupuestos)
  {
    var r := Filter(presupuestos, CoincideCon(f));
    assert forall p :: p in r ==> p in presupuestos && Coincide(f, p) by {
      forall p | p in r ensures p in presupuestos && Coincide(f, p) {
        var i :| 0 <= i < |r| && r[i] == p;
      }
    }
    assert forall p :: p in presupuestos && Coincide(f, p) ==> p in r by {
      forall p | p in presupuestos && Coincide(f, p) ensures p in r {
        var i :| 0 <= i < |presupuestos| && presupuestos[i] == p;
      }
    }
    r
  }

  /** With every filter empty the whole list is shown. */
  lemma SinFiltros(presupuestos: seq<Presupuesto>)
    ensures FilteredPresupuesto(presupuestos, Filtros("", "", "", "")) == presupuestos
  {
    forall i | 0 <= i < |presupuestos| ensures CoincideCon(Filtros("", "", "", ""))(presupuestos[i]) {
      var p := presupuestos[i];
      ContieneVacio(p.vendedor);
      ContieneVacio(p.cliente);
      ContieneVacio(p.factura);
      IncludesEmpty(IntToString(p.codigo));
    }
    FilterAll(presupuestos, CoincideCon(Filtros("", "", "", "")));
  }

  /** Since the invoice filter stays empty, it never excludes a budget. */
  lemma FacturaNoFiltra(vendedor: string, cliente: string, id: string, p: Presupuesto)
    ensures Coincide(Filtros(vendedor, cliente, FacturaFiltro, id), p)
        <==> Contiene(p.vendedor, vendedor) && Contiene(p.cliente, cliente) && Includes(IntToString(p.codigo), id)
  {
    ContieneVacio(p.factura);
  }

  /** Typing a budget's full code in the id filter, with the other filters empty, keeps that budget. */
  lemma EncontradoPorCodigo(presupuestos: seq<Presupuesto>, p: Presupuesto)
    requires p in presupuestos
    ensures p in FilteredPresupuesto(presupuestos, Filtros("", "", "", IntToString(p.codigo)))
  {
    ContieneVacio(p.vendedor);
    ContieneVacio(p.cliente);
    ContieneVacio(p.factura);
    IncludesSelf(IntToString(p.codigo));
  }

  /** Filtering the shown list again by the same filters shows the same list. */
  lemma FiltrarDosVeces(presupuestos: seq<Presupuesto>, f: Filtros)
    ensures FilteredPresupuesto(FilteredPresupuesto(presupuestos, f), f) == FilteredPresupuesto(presupuestos, f)
  {
    FilterIdempotent(presupuestos, CoincideCon(f));
  }

  /** A confirmed budget's row is highlighted; every other row is white. */
  function ColorFila(p: Presupuesto): (r: string)
    ensures r == "red.100" <==> p.estado_desc == "Confirmado"
    ensures r == "white" <==> p.estado_desc != "Confirmado"
  {
    if p.estado_desc == "Confirmado" then "red.100" else "white"
  }

  /** The detail table's subtotal column: price times quantity, less the line discount. */
  function SubtotalDetalle(d: Recibos.DetalleRecibo): (r: real)
    ensures r == Recibos.ValorFila(d)
    ensures r + d.descuento == d.precio * d.cantidad
  {
    d.precio * d.cantidad - d.descuento
  }

  /** A call `handleSelectPresupuesto` makes to the optional callbacks it was given. */
  datatype Llamada = AlSeleccionar(p: Presupuesto, detalles: seq<Recibos.DetalleRecibo>) | AlCerrar

  /**
   * `handleSelectPresupuesto`: hands the budget and the shown details to `onSelectPresupuesto`
   * and then calls `onClose`, each only when it was provided.
   */
  function HandleSelectPresupuesto(p: Presupuesto, detalles: seq<Recibos.DetalleRecibo>,
                                   haySeleccionar: bool, hayCerrar: bool): (r: seq<Llamada>)
    ensures |r| == (if haySeleccionar then 1 else 0) + (if hayCerrar then 1 else 0)
    ensures haySeleccionar ==> r[0] == AlSeleccionar(p, detalles)
    ensures hayCerrar ==> r[|r| - 1] == AlCerrar
    ensures AlCerrar in r <==> hayCerrar
  {
    (if haySeleccionar then [AlSeleccionar(p, detalles)] else []) + (if hayCerrar then [AlCerrar] else [])
  }
}
