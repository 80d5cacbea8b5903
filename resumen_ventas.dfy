/**
 * The sales summary screen (`src/views/ventas/ResumenVentas.tsx`): the list filter and the
 * detail subtotal. Its row toggle is `Consultas.Seleccion`.
 */
module ResumenVentas {
  import opened Search
  import opened Consultas
  import Recibos

  /** A sale as the list receives it (the fields this screen computes with). */
  datatype Venta = Venta(codigo: int, cliente: string, vendedor: string, factura: string, total: real, descuento: real)

  datatype Filtros = Filtros(vendedor: string, cliente: string, factura: string)

  /** A sale is kept when vendor, client and invoice each contain their filter, ignoring case. */
  predicate Coincide(f: Filtros, v: Venta) {
    Contiene(v.vendedor, f.vendedor) && Contiene(v.cliente, f.cliente) && Contiene(v.factura, f.factura)
  }

  function CoincideCon(f: Filtros): Venta -> bool { v => Coincide(f, v) }

  /** `filteredVentas`: exactly the sales that pass every filter, in list order. */
  function FilteredVentas(ventas: seq<Venta>, f: Filtros): (r: seq<Venta>)
    ensures forall v :: v in r ==> v in ventas && Coincide(f, v)
    ensures forall v :: v in ventas && Coincide(f, v) ==> v in r
    ensures IsSubsequence(r, ventas)
  {
    var r := Filter(ventas, CoincideCon(f));
    assert forall v :: v in r ==> v in ventas && Coincide(f, v) by {
      forall v | v in r ensures v in ventas && Coincide(f, v) {
        var i :| 0 <= i < |r| && r[i] == v;
      }
    }
    assert forall v :: v in ventas && Coincide(f, v) ==> v in r by {
      forall v | v in ventas && Coincide(f, v) ensures v in r {
        var i :| 0 <= i < |ventas| && ventas[i] == v;
      }
    }
    r
  }

  /** With every filter empty all sales are shown. */
  lemma SinFiltros(ventas: seq<Venta>)
    ensures FilteredVentas(ventas, Filtros("", "", "")) == ventas
  {
    forall i | 0 <= i < |ventas| ensures CoincideCon(Filtros("", "", ""))(ventas[i]) {
      ContieneVacio(ventas[i].vendedor);
      ContieneVacio(ventas[i].cliente);
      ContieneVacio(ventas[i].factura);
    }
    FilterAll(ventas, CoincideCon(Filtros("", "", "")));
  }

  /** Only the vendor filter set: the shown sales are those whose vendor contains it. */
  lemma SoloVendedor(ventas: seq<Venta>, vendedor: string, v: Venta)
    requires v in ventas
    ensures v in FilteredVentas(ventas, Filtros(vendedor, "", "")) <==> Contiene(v.vendedor, vendedor)
  {
    ContieneVacio(v.cliente);
    ContieneVacio(v.factura);
  }

  /** The detail table's subtotal column: price times quantity, less the line discount. */
  function SubtotalDetalle(d: Recibos.DetalleRecibo): (r: real)
    ensures r == Recibos.ValorFila(d)
    ensures r + d.descuento == d.precio * d.cantidad
  {
    d.precio * d.cantidad - d.descuento
  }
}
