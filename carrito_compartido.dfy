/**
 * The sale and quotation screens keep their carts under the same store key. A line the
 * sale screen adds records no batch, and the quotation screen reads every line's batch
 * while it renders, so a sale cart left in the store stops the quotation screen from
 * mounting.
 */
module CarritoCompartido {
  import opened Wrappers
  import opened Storage
  import opened Search
  import opened CartEngine
  import PuntoDeVenta
  import Presupuestos

  /**
   * Adding an article on the sale screen and then opening the quotation screen over the
   * same store: the sale line is stored under the shared key, and the quotation screen's
   * first render throws on it.
   */
  method VentaLuegoPresupuesto(store: Store<seq<LineItem>>, clientes: seq<Cliente>, vendedores: seq<Vendedor>,
                               sucursales: seq<string>, depositos: seq<string>, a: Articulo)
    returns (venta: PuntoDeVenta.Screen, presupuesto: Presupuestos.Screen)
    modifies store
    ensures venta.items != [] && venta.items[|venta.items| - 1].lote.None?
    ensures presupuesto.caido
    ensures presupuesto.items == venta.items
  {
    venta := new PuntoDeVenta.Screen(store, clientes, vendedores, sucursales, depositos);
    venta.SeleccionarArticulo(a);
    venta.AgregarItem();
    var ultimo := |venta.items| - 1;
    assert !ConLote(venta.items) by {
      assert venta.items[ultimo].lote.None?;
    }
    presupuesto := new Presupuestos.Screen(store, clientes, vendedores, sucursales, depositos);
  }
}
