/**
 * The point-of-sale screen (`PuntoDeVenta`). It runs the same cart engine as the quotation
 * screen with its own tax codes, records no batch on its lines, and adds the sale
 * condition, the fiscal-note kind and the invoice number.
 */
module PuntoDeVenta {
  import opened Wrappers
  import opened Search
  import opened Storage
  import opened CartEngine

  /** This screen's tax codes: 1 is 5%, 2 is 10%, 0 is exempt. */
  const Codigos := CodigosVenta

  /**
   * `ventaData`: the common figures plus the sale condition, the invoice number and the
   * client's credit line (`ve_saldo`).
   */
  datatype Venta = Venta(envio: Envio, credito: int, factura: string, saldo: real)

  /**
   * `detalle_ventas` posts no batch: each detail is the common one with its batch dropped,
   * and every other field kept.
   */
  function SinLote(ds: seq<Detalle>): (r: seq<Detalle>)
    ensures |r| == |ds|
    ensures forall i :: 0 <= i < |r| ==> r[i].lote.None? && r[i].(lote := ds[i].lote) == ds[i]
  {
    seq(|ds|, i requires 0 <= i < |ds| => ds[i].(lote := None))
  }

  class Screen {
    /** The browser store; the quotation screen uses the same key. */
    const store: Store<seq<LineItem>>
    /** The client and vendor lists fetched when the screen mounts. */
    const clientes: seq<Cliente>
    const vendedores: seq<Vendedor>

    var items: seq<LineItem>
    var moneda: Moneda
    var cantidad: real
    var selectedItem: Option<Articulo>
    var articuloBusqueda: string
    /** The article recommendations the search fetched. */
    var recomendaciones: seq<Articulo>
    var descuentoTipo: string
    var descuentoValor: real
    var clienteSeleccionado: Option<Cliente>
    var clienteBusqueda: string
    var recomendacionesClientes: seq<Cliente>
    var sucursal: string
    var deposito: string
    var vendedor: string
    var operador: string
    var buscarVendedor: string
    var recomendacionesVendedores: seq<Vendedor>
    var newSaleID: Option<int>
    var isModalOpen: bool
    /** 0 cash (`Contado`), 1 credit (`Crédito`). */
    var condicionVenta: int
    /** 0 invoice (`Factura`), 1 plain note (`Nota Comun`). */
    var notaFiscal: int
    var numeroFactura: string

    /**
     * Every line is derived for the current currency, the store holds the cart, and the
     * discount type is one of the select's options.
     */
    ghost predicate Valid()
      reads this, store
    {
      && TodosDerivados(Codigos, items, moneda)
      && store.GetItem(CartKey) == Some(items)
      && descuentoTipo in OpcionesDescuento
    }

    /**
     * Mounting: the cart is read back from the store (empty when the key is absent), the
     * currency effect re-derives it for guaraníes, and the cart effect writes it back.
     * Branch and deposit default to the first ones fetched.
     */
    constructor(store: Store<seq<LineItem>>, clientes: seq<Cliente>, vendedores: seq<Vendedor>,
                sucursales: seq<string>, depositos: seq<string>)
      modifies store
      ensures Valid()
      ensures this.store == store && this.clientes == clientes && this.vendedores == vendedores
      ensures items == RederivarTodos(Codigos, old(store.GetItem(CartKey)).GetOr([]), PYG)
      ensures moneda == PYG && cantidad == 1.0 && selectedItem.None?
      ensures descuentoTipo == Porcentaje && descuentoValor == 0.0 && clienteSeleccionado.None?
      ensures sucursal == (if sucursales == [] then "" else sucursales[0])
      ensures deposito == (if depositos == [] then "" else depositos[0])
      ensures vendedor == "" && operador == ""
      ensures condicionVenta == 0 && notaFiscal == 0 && numeroFactura == ""
      ensures store.entries == old(store.entries)[CartKey := items]
    {
      this.store := store;
      this.clientes := clientes;
      this.vendedores := vendedores;
      var guardados := store.GetItem(CartKey).GetOr([]);
      items := RederivarTodos(Codigos, guardados, PYG);
      moneda := PYG;
      cantidad := 1.0;
      selectedItem := None;
      articuloBusqueda := "";
      recomendaciones := [];
      descuentoTipo := Porcentaje;
      descuentoValor := 0.0;
      clienteSeleccionado := None;
      clienteBusqueda := "";
      recomendacionesClientes := [];
      sucursal := if sucursales == [] then "" else sucursales[0];
      deposito := if depositos == [] then "" else depositos[0];
      vendedor := "";
      operador := "";
      buscarVendedor := "";
      recomendacionesVendedores := [];
      newSaleID := None;
      isModalOpen := false;
      condicionVenta := 0;
      notaFiscal := 0;
      numeroFactura := "";
      new;
      store.SetItem(CartKey, items);
    }

    /**
     * `handleBusqueda` with its debounced fetch: the query is set, and the recommendations
     * become the articles the server answers with (`None` for a failed request), or none
     * for an empty query or a failed request.
     */
    method HandleBusqueda(busqueda: string, respuesta: Option<seq<Articulo>>)
      requires Valid()
      modifies this
      ensures Valid()
      ensures articuloBusqueda == busqueda
      ensures |busqueda| > 0 && respuesta.Some? ==> recomendaciones == respuesta.value
      ensures |busqueda| == 0 || respuesta.None? ==> recomendaciones == []
      ensures selectedItem == old(selectedItem) && items == old(items) && moneda == old(moneda)
    {
      articuloBusqueda := busqueda;
      if |busqueda| > 0 {
        recomendaciones := if respuesta.Some? then respuesta.value else [];
      } else {
        recomendaciones := [];
      }
    }

    /** Choosing an article from the recommendations. */
    method SeleccionarArticulo(a: Articulo)
      requires Valid()
      modifies this
      ensures Valid()
      ensures selectedItem == Some(a) && articuloBusqueda == a.ar_descripcion && recomendaciones == []
      ensures items == old(items) && moneda == old(moneda) && cantidad == old(cantidad)
    {
      articuloBusqueda := a.ar_descripcion;
      selectedItem := Some(a);
      recomendaciones := [];
    }

    /**
     * Enter in the article search (`selectFirstArticulo`): with recommendations, the first
     * one is chosen as a click would choose it; without any, nothing changes.
     */
    method SelectFirstArticulo() returns (r: bool)
      requires Valid()
      modifies this
      ensures Valid()
      ensures r <==> old(recomendaciones) != []
      ensures r ==> && selectedItem == Some(old(recomendaciones)[0])
                    && articuloBusqueda == old(recomendaciones)[0].ar_descripcion
                    && recomendaciones == []
      ensures !r ==> unchanged(this)
      ensures items == old(items) && cantidad == old(cantidad)
    {
      if |recomendaciones| > 0 {
        SeleccionarArticulo(recomendaciones[0]);
        r := true;
      } else {
        r := false;
      }
    }

    /** The quantity input (`parseInt` of the field). */
    method SetCantidad(n: int)
      requires Valid()
      modifies this
      ensures Valid()
      ensures cantidad == n as real && items == old(items) && selectedItem == old(selectedItem)
    {
      cantidad := n as real;
    }

    /**
     * `agregarItem`: with an article selected, exactly one derived line is appended and
     * stored, and the quantity, search text and selection are reset; without one, nothing
     * changes.
     */
    method AgregarItem()
      requires Valid()
      modifies this, store
      ensures Valid()
      ensures old(selectedItem).Some? ==>
        && items == old(items) + [NuevoItem(Codigos, old(selectedItem).value, old(cantidad), moneda, None)]
        && cantidad == 1.0 && selectedItem.None? && articuloBusqueda == ""
        && store.entries == old(store.entries)[CartKey := items]
      ensures old(selectedItem).None? ==> unchanged(this) && unchanged(store)
      ensures moneda == old(moneda) && descuentoTipo == old(descuentoTipo) && descuentoValor == old(descuentoValor)
      ensures clienteSeleccionado == old(clienteSeleccionado)
    {
      if selectedItem.Some? {
        var a := selectedItem.value;
        var nuevoItem := NuevoItem(Codigos, a, cantidad, moneda, None);
        var newItems := items + [nuevoItem];
        items := newItems;
        store.SetItem(CartKey, newItems);
        articuloBusqueda := "";
        cantidad := 1.0;
        selectedItem := None;
      }
    }

    /** `eliminarItem`: the line at `index` goes, the others keep their order; any other index changes nothing. */
    method EliminarItem(index: int)
      requires Valid()
      modifies this, store
      ensures Valid()
      ensures 0 <= index < |old(items)| ==> items == old(items)[..index] + old(items)[index + 1..]
      ensures !(0 <= index < |old(items)|) ==> items == old(items)
      ensures store.entries == old(store.entries)[CartKey := items]
      ensures moneda == old(moneda) && selectedItem == old(selectedItem) && cantidad == old(cantidad)
      ensures descuentoTipo == old(descuentoTipo) && descuentoValor == old(descuentoValor)
    {
      var newItems := QuitarIndice(items, index);
      items := newItems;
      store.SetItem(CartKey, newItems);
    }

    /**
     * Choosing a currency. When it differs from the current one, the currency effect
     * re-derives every line and the cart effect stores the result; the fixed-amount rescale
     * only runs for the `"valor"` type, which the discount select never produces.
     */
    method CambiarMoneda(m: Moneda)
      requires Valid()
      modifies this, store
      ensures Valid()
      ensures moneda == m && items == RederivarTodos(Codigos, old(items), m)
      ensures m == old(moneda) ==> items == old(items)
      ensures |items| == |old(items)|
      ensures forall i :: 0 <= i < |items| ==> items[i].cantidad == old(items)[i].cantidad && items[i].id == old(items)[i].id
      ensures descuentoTipo == old(descuentoTipo) && descuentoValor == old(descuentoValor)
      ensures selectedItem == old(selectedItem) && clienteSeleccionado == old(clienteSeleccionado)
      ensures store.entries == old(store.entries)[CartKey := items]
    {
      if m != moneda {
        moneda := m;
        var rederivados := RederivarTodos(Codigos, items, m);
        items := rederivados;
        store.SetItem(CartKey, rederivados);
        descuentoValor := if descuentoTipo == Valor then ReescalarDescuento(descuentoValor, m) else descuentoValor;
      }
    }

    /** The discount-type select: the new type, and the amount back to zero. */
    method SetDescuentoTipo(tipo: string)
      requires Valid() && tipo in OpcionesDescuento
      modifies this
      ensures Valid()
      ensures descuentoTipo == tipo && descuentoValor == 0.0
      ensures items == old(items) && moneda == old(moneda)
    {
      descuentoTipo := tipo;
      descuentoValor := 0.0;
    }

    /** The discount input (`parseInt` of the field). */
    method SetDescuentoValor(v: int)
      requires Valid()
      modifies this
      ensures Valid()
      ensures descuentoValor == v as real && descuentoTipo == old(descuentoTipo) && items == old(items)
    {
      descuentoValor := v as real;
    }

    /** `handleBusquedaCliente`: the query and its recommendations (none for an empty query). */
    method HandleBusquedaCliente(q: string)
      requires Valid()
      modifies this
      ensures Valid()
      ensures clienteBusqueda == q
      ensures recomendacionesClientes == Recomendar(q, clientes, CoincideCliente(q))
      ensures clienteSeleccionado == old(clienteSeleccionado) && items == old(items)
    {
      clienteBusqueda := q;
      if |q| > 0 {
        recomendacionesClientes := Take(Filter(clientes, CoincideCliente(q)), MaxRecomendaciones);
      } else {
        recomendacionesClientes := [];
      }
    }

    /** Choosing a client from the recommendations. */
    method SeleccionarCliente(c: Cliente)
      requires Valid()
      modifies this
      ensures Valid()
      ensures clienteSeleccionado == Some(c) && clienteBusqueda == c.cli_razon && recomendacionesClientes == []
      ensures items == old(items)
    {
      clienteBusqueda := c.cli_razon;
      clienteSeleccionado := Some(c);
      recomendacionesClientes := [];
    }

    /**
     * Enter in the client search (`selectFirstCliente`): with recommendations, the first
     * one is chosen as a click would choose it; without any, nothing changes.
     */
    method SelectFirstCliente() returns (r: bool)
      requires Valid()
      modifies this
      ensures Valid()
      ensures r <==> old(recomendacionesClientes) != []
      ensures r ==> && clienteSeleccionado == Some(old(recomendacionesClientes)[0])
                    && clienteBusqueda == old(recomendacionesClientes)[0].cli_razon
                    && recomendacionesClientes == []
      ensures !r ==> unchanged(this)
      ensures items == old(items)
    {
      if |recomendacionesClientes| > 0 {
        SeleccionarCliente(recomendacionesClientes[0]);
        r := true;
      } else {
        r := false;
      }
    }

    /**
     * `handleBusquedaVendedor`: the recommendations, and the vendor set to the first of
     * them, or cleared when there is none or the query is empty.
     */
    method HandleBusquedaVendedor(q: string)
      requires Valid()
      modifies this
      ensures Valid()
      ensures buscarVendedor == q
      ensures recomendacionesVendedores == Recomendar(q, vendedores, CoincideVendedor(q))
      ensures recomendacionesVendedores != [] ==>
        vendedor == recomendacionesVendedores[0].op_nombre && operador == recomendacionesVendedores[0].op_codigo
      ensures recomendacionesVendedores == [] ==> vendedor == "" && operador == ""
      ensures items == old(items) && clienteSeleccionado == old(clienteSeleccionado)
    {
      buscarVendedor := q;
      if |q| > 0 {
        var filteredVendedores := Take(Filter(vendedores, CoincideVendedor(q)), MaxRecomendaciones);
        recomendacionesVendedores := filteredVendedores;
        if |filteredVendedores| > 0 {
          vendedor := filteredVendedores[0].op_nombre;
          operador := filteredVendedores[0].op_codigo;
        } else {
          vendedor := "";
          operador := "";
        }
      } else {
        recomendacionesVendedores := [];
        vendedor := "";
        operador := "";
      }
    }

    /** Choosing a vendor from the recommendations. */
    method SeleccionarVendedor(v: Vendedor)
      requires Valid()
      modifies this
      ensures Valid()
      ensures buscarVendedor == v.op_codigo && vendedor == v.op_nombre && operador == v.op_codigo
      ensures recomendacionesVendedores == [] && items == old(items)
    {
      buscarVendedor := v.op_codigo;
      vendedor := v.op_nombre;
      operador := v.op_codigo;
      recomendacionesVendedores := [];
    }

    /**
     * Enter in the vendor search (`selectFirstVendedor`): with recommendations, the first
     * one is taken as a click would take it; without any, nothing changes.
     */
    method SelectFirstVendedor() returns (r: bool)
      requires Valid()
      modifies this
      ensures Valid()
      ensures r <==> old(recomendacionesVendedores) != []
      ensures r ==> && vendedor == old(recomendacionesVendedores)[0].op_nombre
                    && operador == old(recomendacionesVendedores)[0].op_codigo
                    && buscarVendedor == old(recomendacionesVendedores)[0].op_codigo
                    && recomendacionesVendedores == []
      ensures !r ==> unchanged(this)
      ensures items == old(items)
    {
      if |recomendacionesVendedores| > 0 {
        SeleccionarVendedor(recomendacionesVendedores[0]);
        r := true;
      } else {
        r := false;
      }
    }

    /** The branch select. */
    method SetSucursal(s: string)
      requires Valid()
      modifies this
      ensures Valid()
      ensures sucursal == s && items == old(items)
    {
      sucursal := s;
    }

    /**
     * `finalizarVenta`. The first missing datum (client, branch, deposit, vendor, a line)
     * stops it with nothing changed. Otherwise the sale is posted; `respuesta` is the body
     * the server answers with (`None` for a failed request), and only a nonzero body counts
     * as success: then the cart, client, client search, discount amount, sale condition,
     * fiscal-note kind and invoice number are reset and the receipt opens. A failure
     * changes nothing.
     */
    method Finalizar(respuesta: Option<int>, parseInt: string -> int) returns (falta: Option<Falta>, enviado: Option<Venta>)
      requires Valid()
      requires PrimeraFalta(clienteSeleccionado, sucursal, deposito, vendedor, |items|).None?
               ==> ReparteDefinido(descuentoTipo, Subtotal(items))
      modifies this, store
      ensures Valid()
      ensures falta == PrimeraFalta(old(clienteSeleccionado), old(sucursal), old(deposito), old(vendedor), |old(items)|)
      ensures falta.Some? ==> enviado.None? && unchanged(this) && unchanged(store)
      ensures falta.None? ==>
        var comun := ArmarEnvio(old(clienteSeleccionado).value, old(operador), old(sucursal), old(deposito),
                                old(items), old(descuentoTipo), old(descuentoValor), old(moneda), parseInt);
        enviado == Some(Venta(comun.(detalles := SinLote(comun.detalles)), old(condicionVenta),
                              old(numeroFactura), old(clienteSeleccionado).value.cli_limitecredito))
      ensures falta.None? ==> forall i :: 0 <= i < |enviado.value.envio.detalles| ==> enviado.value.envio.detalles[i].lote.None?
      ensures falta.None? && respuesta.Some? && respuesta.value != 0 ==>
        && items == [] && store.entries == old(store.entries)[CartKey := []]
        && clienteSeleccionado.None? && clienteBusqueda == "" && descuentoValor == 0.0
        && condicionVenta == 0 && notaFiscal == 0 && numeroFactura == ""
        && isModalOpen && newSaleID == respuesta
        && moneda == old(moneda) && descuentoTipo == old(descuentoTipo)
      ensures falta.None? && (respuesta.None? || respuesta.value == 0) ==> unchanged(this) && unchanged(store)
    {
      falta := PrimeraFalta(clienteSeleccionado, sucursal, deposito, vendedor, |items|);
      if falta.Some? {
        enviado := None;
        return;
      }
      var ventaData := ArmarEnvio(clienteSeleccionado.value, operador, sucursal, deposito, items,
                                  descuentoTipo, descuentoValor, moneda, parseInt);
      enviado := Some(Venta(ventaData.(detalles := SinLote(ventaData.detalles)), condicionVenta, numeroFactura,
                            clienteSeleccionado.value.cli_limitecredito));
      if respuesta.Some? && respuesta.value != 0 {
        Cancelar();
        newSaleID := respuesta;
        isModalOpen := true;
      }
    }

    /**
     * `cancelarVenta`: empties and stores the cart, clears the client, and resets the
     * discount amount, sale condition, fiscal-note kind and invoice number.
     */
    method Cancelar()
      requires Valid()
      modifies this, store
      ensures Valid()
      ensures items == [] && store.entries == old(store.entries)[CartKey := []]
      ensures clienteSeleccionado.None? && clienteBusqueda == "" && descuentoValor == 0.0
      ensures condicionVenta == 0 && notaFiscal == 0 && numeroFactura == ""
      ensures moneda == old(moneda) && descuentoTipo == old(descuentoTipo) && sucursal == old(sucursal)
    {
      items := [];
      store.SetItem(CartKey, []);
      clienteSeleccionado := None;
      clienteBusqueda := "";
      descuentoValor := 0.0;
      condicionVenta := 0;
      notaFiscal := 0;
      numeroFactura := "";
    }

    /** The credit button is disabled without a client or with no positive credit line. */
    function CreditoDeshabilitado(): (r: bool)
      reads this
      ensures !r <==> clienteSeleccionado.Some? && clienteSeleccionado.value.cli_limitecredito > 0.0
    {
      clienteSeleccionado.None? || clienteSeleccionado.value.cli_limitecredito <= 0.0
    }

    /** The cash and credit buttons; credit can only be pressed while enabled. */
    method SetCondicionVenta(c: int)
      requires Valid()
      requires c == 0 || (c == 1 && !CreditoDeshabilitado())
      modifies this
      ensures Valid()
      ensures condicionVenta == c && items == old(items) && clienteSeleccionado == old(clienteSeleccionado)
      ensures condicionVenta == 1 ==> clienteSeleccionado.Some? && clienteSeleccionado.value.cli_limitecredito > 0.0
    {
      condicionVenta := c;
    }

    /** The invoice and plain-note buttons. */
    method SetNotaFiscal(n: int)
      requires Valid() && (n == 0 || n == 1)
      modifies this
      ensures Valid()
      ensures notaFiscal == n && items == old(items)
    {
      notaFiscal := n;
    }

    /** The invoice-number input. */
    method SetNumeroFactura(s: string)
      requires Valid()
      modifies this
      ensures Valid()
      ensures numeroFactura == s && items == old(items)
    {
      numeroFactura := s;
    }

    /**
     * The tax box: the 5% and 10% figures are their displayed columns divided by 20 and
     * 10, and "Total Impuestos" is the value of the lines with a known code, which is the
     * subtotal when every code is known.
     */
    method TotalesImpuestos() returns (iva5: real, iva10: real, totalImpuestos: real)
      requires Valid()
      ensures iva5 == TotalColumna(Codigos, items, moneda, Cinco) * 5.0 / 100.0
      ensures iva10 == TotalColumna(Codigos, items, moneda, Diez) * 10.0 / 100.0
      ensures totalImpuestos == ValorConocido(Codigos, items, moneda)
      ensures (forall i :: 0 <= i < |items| ==> Codigos.Conocido(items[i].impuesto)) ==> totalImpuestos == Subtotal(items)
    {
      var total5 := CalcularTotalColumna(Codigos, items, moneda, Cinco);
      var total10 := CalcularTotalColumna(Codigos, items, moneda, Diez);
      iva5 := IvaMostrado5(total5);
      iva10 := IvaMostrado10(total10);
      totalImpuestos := CalcularTotalImpuestos(Codigos, items, moneda);
      if forall i :: 0 <= i < |items| ==> Codigos.Conocido(items[i].impuesto) {
        ValorConocidoEsSubtotal(Codigos, items, moneda);
      }
    }

    /** The posted total, as `calcularTotal` computes it from the current state. */
    function Total(): (t: real)
      reads this
      ensures t == CalcularTotal(Subtotal(items), descuentoTipo, descuentoValor, moneda)
      ensures descuentoTipo == Porcentaje && Subtotal(items) == 0.0 ==> t == 0.0
      ensures descuentoValor == 0.0 ==> t == Subtotal(items)
    {
      CalcularTotal(Subtotal(items), descuentoTipo, descuentoValor, moneda)
    }
  }
}
