/**
 * The first point-of-sale prototype (`src/views/punto_de_venta.tsx`): dollar-based prices,
 * three currencies, a cart whose line subtotals are fixed when the line is added, a total
 * recomputed from the prices, and three recommendation searches over fixed catalogues.
 */
module PrototipoPos {
  import opened Wrappers
  import opened JsStrings
  import Search
  import opened Tipos

  /** The currency select's options. */
  datatype Divisa = USD | BRL | PYG

  /** The prototype's exchange table: prices are in dollars. */
  function TasaCambio(d: Divisa): (r: real)
    ensures r >= 1.0
    ensures r == 1.0 <==> d == USD
  {
    match d
    case USD => 1.0
    case BRL => 5.24
    case PYG => 7300.0
  }

  /** A cart line: the article's fields, the quantity, and the subtotal fixed when it was added. */
  datatype Linea = Linea(id: int, nombre: string, precio: real, codigo: string, cantidad: real, subtotal: real)

  const Sucursales: seq<string> := ["Central", "Norte", "Sur"]
  const Depositos: seq<string> := ["Principal", "Secundario", "Auxiliar"]

  const Vendedores: seq<Vendedor> := [
    Vendedor(1, "Juan Pérez", "001"), Vendedor(2, "María González", "002"),
    Vendedor(3, "Carlos Rodríguez", "003"), Vendedor(4, "Ana Martínez", "004"),
    Vendedor(5, "Pedro Gómez", "005"), Vendedor(6, "Laura Benítez", "006")]

  const Clientes: seq<Cliente> := [
    Cliente(1, "Juan Pérez", "5566958-1", 1000.0), Cliente(2, "María González", "5566958-2", 2000.0),
    Cliente(3, "Carlos Rodríguez", "5566958-3", 0.0), Cliente(4, "Ana Martínez", "5566958-4", 500.0),
    Cliente(5, "Pedro Gómez", "5566958-5", 1500.0), Cliente(6, "Laura Benítez", "5566958-6", 0.0),
    Cliente(7, "José López", "5566958-7", 3000.0), Cliente(8, "Sofía Pérez", "5566958-8", 2500.0),
    Cliente(9, "Diego González", "5566958-9", 1000.0), Cliente(10, "Gabriela Rodríguez", "5566958-10", 0.0),
    Cliente(11, "Jorge Martínez", "5566958-11", 500.0), Cliente(12, "Marcela Gómez", "5566958-12", 1000.0),
    Cliente(13, "Miguel Benítez", "5566958-13", 2000.0), Cliente(14, "Carmen López", "5566958-14", 1500.0)]

  const Articulos: seq<Articulo> := [
    Articulo(1, "Laptop HP", 899.99, "HP-001"),
    Articulo(2, "Monitor Dell 27\"", 299.99, "DELL-001"),
    Articulo(3, "Teclado Mecánico", 129.99, "RAZER-001"),
    Articulo(4, "Mouse Logitech", 49.99, "LOGITECH-001"),
    Articulo(5, "Impresora Epson", 199.99, "EPSON-001"),
    Articulo(6, "Silla Gamer", 199.99, "GAMER-001"),
    Articulo(7, "Escritorio", 299.99, "DESK-001"),
    Articulo(8, "Silla de Oficina", 99.99, "OFFICE-001"),
    Articulo(9, "Lámpara de Escritorio", 29.99, "LAMP-001"),
    Articulo(10, "Estantería", 79.99, "SHELF-001"),
    Articulo(11, "Cajonera", 49.99, "DRAWER-001"),
    Articulo(12, "Mesa de Centro", 99.99, "COFFEE-001"),
    Articulo(13, "Sofá", 499.99, "SOFA-001"),
    Articulo(14, "Mesa de Comedor", 199.99, "DINING-001"),
    Articulo(15, "Silla de Comedor", 49.99, "DINING-CHAIR-001"),
    Articulo(16, "Cama", 299.99, "BED-001"),
    Articulo(17, "Colchón", 199.99, "MATTRESS-001"),
    Articulo(18, "Mesa de Noche", 49.99, "NIGHTSTAND-001"),
    Articulo(19, "Armario", 199.99, "WARDROBE-001"),
    Articulo(20, "Espejo", 29.99, "MIRROR-001"),
    Articulo(21, "Cómoda", 99.99, "DRESSER-001"),
    Articulo(22, "Mesa de TV", 79.99, "TV-STAND-001"),
    Articulo(23, "Silla de Oficina", 99.99, "OFFICE-CHAIR-001"),
    Articulo(24, "Lámpara de Pie", 49.99, "FLOOR-LAMP-001"),
    Articulo(25, "Sofá Cama", 399.99, "SOFA-BED-001"),
    Articulo(26, "Mesa de Centro Elevable", 149.99, "COFFEE-TABLE-001"),
    Articulo(27, "Mesa de Comedor Extensible", 299.99, "EXTENDABLE-DINING-TABLE-001")]

  const Porcentaje := "porcentaje"
  /** The discount select's options; only the first is a percentage. */
  const OpcionesDescuento: seq<string> := [Porcentaje, "monto"]
  const Contado := "Contado"
  const Credito := "Crédito"
  const NotasFiscales: seq<string> := ["Factura", "Boleta"]

  /** A client matches on its name ignoring case, or on its RUC as typed. */
  predicate ClienteCoincide(q: string, c: Cliente) {
    Includes(Lower(c.nombre), Lower(q)) || Includes(c.ruc, q)
  }

  /** A vendor matches on its name ignoring case, or on its code as typed. */
  predicate VendedorCoincide(q: string, v: Vendedor) {
    Includes(Lower(v.nombre), Lower(q)) || Includes(v.codigo, q)
  }

  function CoincideCliente(q: string): Cliente -> bool { c => ClienteCoincide(q, c) }
  function CoincideVendedor(q: string): Vendedor -> bool { v => VendedorCoincide(q, v) }

  /** The line `agregarItem` builds: the article, the quantity, and the subtotal in the current currency. */
  function NuevoItem(a: Articulo, cantidad: real, d: Divisa): (r: Linea)
    ensures r.id == a.id && r.nombre == a.nombre && r.precio == a.precio && r.codigo == a.codigo
    ensures r.cantidad == cantidad
    ensures d == USD ==> r.subtotal == a.precio * cantidad
  {
    Linea(a.id, a.nombre, a.precio, a.codigo, cantidad, a.precio * cantidad * TasaCambio(d))
  }

  /** One line's share of the total, recomputed from its dollar price in currency `d`. */
  function Aporte(it: Linea, d: Divisa): real {
    it.precio * TasaCambio(d) * it.cantidad
  }

  /** The subtotal `calcularTotal` and the subtotal label compute: every line re-priced in `d`. */
  function SubtotalEn(items: seq<Linea>, d: Divisa): real {
    if items == [] then 0.0 else SubtotalEn(items[..|items| - 1], d) + Aporte(items[|items| - 1], d)
  }

  /** The sum of the subtotals stored in the lines when they were added. */
  function SumaGuardada(items: seq<Linea>): real {
    if items == [] then 0.0 else SumaGuardada(items[..|items| - 1]) + items[|items| - 1].subtotal
  }

  /** Every stored subtotal was computed in currency `d`. */
  predicate AgregadosEn(items: seq<Linea>, d: Divisa) {
    forall i :: 0 <= i < |items| ==> items[i].subtotal == items[i].precio * items[i].cantidad * TasaCambio(d)
  }

  /**
   * `calcularTotal`: the subtotal less the percentage in percentage mode; in any other mode
   * less the amount as typed, which is not converted to the current currency.
   */
  function Total(items: seq<Linea>, tipo: string, valor: real, d: Divisa): (t: real)
    ensures tipo == Porcentaje ==> t == SubtotalEn(items, d) * (100.0 - valor) / 100.0
    ensures tipo != Porcentaje ==> t + valor == SubtotalEn(items, d)
  {
    var subtotal := SubtotalEn(items, d);
    if tipo == Porcentaje then subtotal - (subtotal * valor) / 100.0 else subtotal - valor
  }

  lemma EscalaLinea(it: Linea, d: Divisa)
    ensures Aporte(it, d) == Aporte(it, USD) * TasaCambio(d)
  {
  }

  /** Re-pricing in another currency scales the subtotal by that currency's rate. */
  lemma {:induction false} SubtotalEscala(items: seq<Linea>, d: Divisa)
    ensures SubtotalEn(items, d) == SubtotalEn(items, USD) * TasaCambio(d)
  {
    if items != [] {
      var init := items[..|items| - 1];
      var last := items[|items| - 1];
      SubtotalEscala(init, d);
      EscalaLinea(last, d);
      var r := TasaCambio(d);
      assert (SubtotalEn(init, USD) + Aporte(last, USD)) * r == SubtotalEn(init, USD) * r + Aporte(last, USD) * r;
    }
  }

  /** While every line was added in the shown currency, the stored subtotals add up to the displayed subtotal. */
  lemma {:induction false} GuardadoCoincide(items: seq<Linea>, d: Divisa)
    requires AgregadosEn(items, d)
    ensures SumaGuardada(items) == SubtotalEn(items, d)
  {
    if items != [] {
      var init := items[..|items| - 1];
      assert AgregadosEn(init, d) by {
        forall i | 0 <= i < |init| ensures init[i] == items[i] { }
      }
      GuardadoCoincide(init, d);
    }
  }

  /** Adding a line in the shown currency raises the displayed subtotal by exactly that line's stored subtotal. */
  lemma AgregarSuma(items: seq<Linea>, a: Articulo, cantidad: real, d: Divisa)
    ensures SubtotalEn(items + [NuevoItem(a, cantidad, d)], d) == SubtotalEn(items, d) + NuevoItem(a, cantidad, d).subtotal
  {
    var s := items + [NuevoItem(a, cantidad, d)];
    assert s[..|s| - 1] == items;
  }

  /**
   * After switching currency a stored subtotal is stale: a one-dollar line added in dollars
   * still stores 1, while the guaraní subtotal re-prices it at 7300.
   */
  lemma GuardadoNoSeReconvierte()
    ensures var items := [NuevoItem(Articulo(1, "a", 1.0, "A"), 1.0, USD)];
            SumaGuardada(items) == 1.0 && SubtotalEn(items, PYG) == 7300.0
  {
    var items := [NuevoItem(Articulo(1, "a", 1.0, "A"), 1.0, USD)];
    assert items[..0] == [];
  }

  /** The fixed amount is subtracted as typed: in guaraníes a discount of 1 removes one guaraní, not one dollar. */
  lemma DescuentoFijoSinConvertir(items: seq<Linea>, valor: real)
    ensures Total(items, "monto", valor, PYG) == SubtotalEn(items, USD) * 7300.0 - valor
  {
    SubtotalEscala(items, PYG);
  }

  class Screen {
    /** The catalogues the searches run over (the module's fixed tables). */
    const articulos: seq<Articulo>
    const clientes: seq<Cliente>
    const vendedores: seq<Vendedor>

    var sucursal: string
    var deposito: string
    var moneda: Divisa
    var vendedor: string
    var clienteSeleccionado: Option<Cliente>
    var articuloBusqueda: string
    var clienteBusqueda: string
    var cantidad: real
    var items: seq<Linea>
    var selectedItem: Option<Articulo>
    var condicionVenta: string
    var notaFiscal: string
    var recomendaciones: seq<Articulo>
    var recomendacionesClientes: seq<Cliente>
    var descuentoTipo: string
    var descuentoValor: real
    var buscarVendedor: string
    var recomendacionesVendedores: seq<Vendedor>

    /** The selects only ever hold one of their options. */
    ghost predicate Valid()
      reads this
    {
      && descuentoTipo in OpcionesDescuento
      && (condicionVenta == Contado || condicionVenta == Credito)
      && notaFiscal in NotasFiscales
    }

    constructor()
      ensures Valid()
      ensures articulos == Articulos && clientes == Clientes && vendedores == Vendedores
      ensures sucursal == "Central" && deposito == "Principal" && moneda == PYG && vendedor == ""
      ensures clienteSeleccionado.None? && cantidad == 1.0 && items == [] && selectedItem.None?
      ensures condicionVenta == Contado && notaFiscal == "Factura"
      ensures descuentoTipo == Porcentaje && descuentoValor == 0.0
      ensures recomendaciones == [] && recomendacionesClientes == [] && recomendacionesVendedores == []
    {
      articulos := Articulos;
      clientes := Clientes;
      vendedores := Vendedores;
      sucursal := "Central";
      deposito := "Principal";
      moneda := PYG;
      vendedor := "";
      clienteSeleccionado := None;
      articuloBusqueda := "";
      clienteBusqueda := "";
      cantidad := 1.0;
      items := [];
      selectedItem := None;
      condicionVenta := Contado;
      notaFiscal := "Factura";
      recomendaciones := [];
      recomendacionesClientes := [];
      descuentoTipo := Porcentaje;
      descuentoValor := 0.0;
      buscarVendedor := "";
      recomendacionesVendedores := [];
    }

    /** `agregarItem`: with a selection, one line is appended and the quantity, search and selection reset. */
    method AgregarItem()
      requires Valid()
      modifies this
      ensures Valid()
      ensures old(selectedItem).Some? ==>
        && items == old(items) + [NuevoItem(old(selectedItem).value, old(cantidad), moneda)]
        && articuloBusqueda == "" && cantidad == 1.0 && selectedItem.None?
      ensures old(selectedItem).None? ==> unchanged(this)
      ensures moneda == old(moneda) && descuentoTipo == old(descuentoTipo) && descuentoValor == old(descuentoValor)
    {
      if selectedItem.Some? {
        var nuevoItem := NuevoItem(selectedItem.value, cantidad, moneda);
        items := items + [nuevoItem];
        articuloBusqueda := "";
        cantidad := 1.0;
        selectedItem := None;
      }
    }

    /** The currency select: only the currency changes; stored line subtotals are kept as they were. */
    method SetMoneda(d: Divisa)
      requires Valid()
      modifies this
      ensures Valid()
      ensures moneda == d && items == old(items) && descuentoValor == old(descuentoValor)
    {
      moneda := d;
    }

    /** The quantity input (`parseInt` of the field). */
    method SetCantidad(n: int)
      requires Valid()
      modifies this
      ensures Valid()
      ensures cantidad == n as real && items == old(items) && selectedItem == old(selectedItem)
    {
      cantidad := n as real;
    }

    /**
     * `calcularTotal`: the subtotal re-priced from every line's dollar price, less the
     * discount. The method changes nothing.
     */
    method CalcularTotal() returns (total: real)
      ensures total == Total(items, descuentoTipo, descuentoValor, moneda)
    {
      var subtotal := 0.0;
      var i := 0;
      while i < |items|
        invariant 0 <= i <= |items|
        invariant subtotal == SubtotalEn(items[..i], moneda)
      {
        assert items[..i + 1][..i] == items[..i];
        subtotal := subtotal + items[i].precio * TasaCambio(moneda) * items[i].cantidad;
        i := i + 1;
      }
      assert items[..|items|] == items;
      total := subtotal;
      if descuentoTipo == Porcentaje {
        total := total - (subtotal * descuentoValor) / 100.0;
      } else {
        total := total - descuentoValor;
      }
    }

    /** `handleBusqueda`: the article query and its first five matches (none for an empty query). */
    method HandleBusqueda(q: string)
      requires Valid()
      modifies this
      ensures Valid()
      ensures articuloBusqueda == q && recomendaciones == Search.Recomendar(q, articulos, CoincideArticulo(q))
      ensures items == old(items) && selectedItem == old(selectedItem)
    {
      articuloBusqueda := q;
      if |q| > 0 {
        recomendaciones := Search.Take(Search.Filter(articulos, CoincideArticulo(q)), Search.MaxRecomendaciones);
      } else {
        recomendaciones := [];
      }
    }

    /** Choosing an article from the recommendations. */
    method SeleccionarArticulo(a: Articulo)
      requires Valid()
      modifies this
      ensures Valid()
      ensures articuloBusqueda == a.nombre && selectedItem == Some(a) && recomendaciones == []
      ensures items == old(items) && cantidad == old(cantidad)
    {
      articuloBusqueda := a.nombre;
      selectedItem := Some(a);
      recomendaciones := [];
    }

    /** `handleBusquedaCliente`: the client query and its first five matches (none for an empty query). */
    method HandleBusquedaCliente(q: string)
      requires Valid()
      modifies this
      ensures Valid()
      ensures clienteBusqueda == q && recomendacionesClientes == Search.Recomendar(q, clientes, CoincideCliente(q))
      ensures clienteSeleccionado == old(clienteSeleccionado) && items == old(items)
    {
      clienteBusqueda := q;
      if |q| > 0 {
        recomendacionesClientes := Search.Take(Search.Filter(clientes, CoincideCliente(q)), Search.MaxRecomendaciones);
      } else {
        recomendacionesClientes := [];
      }
    }

    /** Choosing a client from the recommendations. */
    method SeleccionarCliente(c: Cliente)
      requires Valid()
      modifies this
      ensures Valid()
      ensures clienteBusqueda == c.nombre && clienteSeleccionado == Some(c) && recomendacionesClientes == []
      ensures items == old(items) && condicionVenta == old(condicionVenta)
    {
      clienteBusqueda := c.nombre;
      clienteSeleccionado := Some(c);
      recomendacionesClientes := [];
    }

    /**
     * `handleBusquedaVendedor`: the vendor query and its first five matches. A non-empty
     * query with a match makes the first catalogue vendor that matches the vendor; an empty
     * query, or one nothing matches, leaves the vendor as it was.
     */
    method HandleBusquedaVendedor(q: string)
      requires Valid()
      modifies this
      ensures Valid()
      ensures buscarVendedor == q
      ensures recomendacionesVendedores == Search.Recomendar(q, vendedores, CoincideVendedor(q))
      ensures recomendacionesVendedores == [] ==> vendedor == old(vendedor)
      ensures recomendacionesVendedores != [] ==>
        exists i :: 0 <= i < |vendedores| && PrimeroQueCoincide(q, i) && vendedor == vendedores[i].nombre
      ensures items == old(items) && clienteSeleccionado == old(clienteSeleccionado)
    {
      buscarVendedor := q;
      if |q| > 0 {
        var filteredVendedores := Search.Take(Search.Filter(vendedores, CoincideVendedor(q)), Search.MaxRecomendaciones);
        recomendacionesVendedores := filteredVendedores;
        if |filteredVendedores| > 0 {
          vendedor := filteredVendedores[0].nombre;
          var i := Search.FilterPrimero(vendedores, CoincideVendedor(q));
          assert PrimeroQueCoincide(q, i);
        }
      } else {
        recomendacionesVendedores := [];
      }
    }

    /** Vendor `i` matches `q` and no vendor before it does. */
    ghost predicate PrimeroQueCoincide(q: string, i: int)
      reads this
    {
      0 <= i < |vendedores| && VendedorCoincide(q, vendedores[i])
      && forall j :: 0 <= j < i ==> !VendedorCoincide(q, vendedores[j])
    }

    /** Choosing a vendor from the recommendations. */
    method SeleccionarVendedor(v: Vendedor)
      requires Valid()
      modifies this
      ensures Valid()
      ensures buscarVendedor == v.codigo && vendedor == v.nombre && recomendacionesVendedores == []
      ensures items == old(items)
    {
      buscarVendedor := v.codigo;
      vendedor := v.nombre;
      recomendacionesVendedores := [];
    }

    /** The Crédito button is disabled with no client selected, or one whose credit line is zero. */
    function CreditoDeshabilitado(): (r: bool)
      reads this
      ensures !r <==> clienteSeleccionado.Some? && clienteSeleccionado.value.lineaCredito != 0.0
    {
      clienteSeleccionado.None? || clienteSeleccionado.value.lineaCredito == 0.0
    }

    /** The sale-condition buttons; Crédito only when it is enabled. */
    method SetCondicionVenta(c: string)
      requires Valid()
      requires c == Contado || (c == Credito && !CreditoDeshabilitado())
      modifies this
      ensures Valid()
      ensures condicionVenta == c && items == old(items) && clienteSeleccionado == old(clienteSeleccionado)
    {
      condicionVenta := c;
    }

    /** The fiscal-document buttons. */
    method SetNotaFiscal(n: string)
      requires Valid() && n in NotasFiscales
      modifies this
      ensures Valid()
      ensures notaFiscal == n && items == old(items)
    {
      notaFiscal := n;
    }

    /** The discount-type select: the new type, and the amount back to zero. */
    method SetDescuentoTipo(tipo: string)
      requires Valid() && tipo in OpcionesDescuento
      modifies this
      ensures Valid()
      ensures descuentoTipo == tipo && descuentoValor == 0.0 && items == old(items)
    {
      descuentoTipo := tipo;
      descuentoValor := 0.0;
    }

    /** The discount input (`parseInt` of the field). */
    method SetDescuentoValor(v: int)
      requires Valid()
      modifies this
      ensures Valid()
      ensures descuentoValor == v as real && descuentoTipo == old(descuentoTipo) && items == old(items)
    {
      descuentoValor := v as real;
    }
  }

  /** Client 3 has a zero credit line, so Crédito stays disabled after choosing it. */
  method CreditoDeClienteSinLinea() returns (deshabilitado: bool)
    ensures deshabilitado
  {
    var s := new Screen();
    s.SeleccionarCliente(Clientes[2]);
    deshabilitado := s.CreditoDeshabilitado();
  }
}
