/**
 * The quotation screen (`Presupuestos`). Each event handler is one atomic transition of
 * the screen state; the cart is mirrored into the browser store under the cart key.
 */
module Presupuestos {
  import opened Wrappers
  import opened Search
  import opened Storage
  import opened CartEngine

  /** This screen's tax codes: 3 is 5%, 2 is 10%, 1 is exempt. */
  const Codigos := CodigosPresupuesto

  class Screen {
    /** The browser store; the sale screen uses the same key. */
    const store: Store<seq<LineItem>>
    /** The client and vendor lists fetched when the screen mounts. */
    const clientes: seq<Cliente>
    const vendedores: seq<Vendedor>

    var items: seq<LineItem>
    var moneda: Moneda
    var cantidad: real
    var selectedItem: Option<Articulo>
    var articuloBusqueda: string
    /** The article recommendations the search fetched. */
    var recomendaciones: seq<Articulo>
    var descuentoTipo: string
    var descuentoValor: real
    var clienteSeleccionado: Option<Cliente>
    var clienteBusqueda: string
    var recomendacionesClientes: seq<Cliente>
    var sucursal: string
    var deposito: string
    var vendedor: string
    var operador: string
    var buscarVendedor: string
    var recomendacionesVendedores: seq<Vendedor>
    var newPresupuestoID: Option<int>
    var isModalOpen: bool
    /**
     * The first render threw: a stored line had no batch (`item.lote.toString()` on
     * `undefined`). The screen is gone and none of its handlers can run.
     */
    var caido: bool

    /**
     * The screen is up, every line is derived for the current currency and records a
     * batch, the store holds the cart, and the discount type is one of the select's options.
     */
    ghost predicate Valid()
      reads this, store
    {
      && !caido
      && TodosDerivados(Codigos, items, moneda)
      && ConLote(items)
      && store.GetItem(CartKey) == Some(items)
      && descuentoTipo in OpcionesDescuento
    }

    /**
     * Mounting: the cart is read back from the store (empty when the key is absent). The
     * first render builds the payload from it, and throws when a line has no batch; then
     * no effect runs and the store is left as it was. Otherwise the currency effect
     * re-derives the cart for guaraníes and the cart effect writes it back. Branch and
     * deposit default to the first ones fetched.
     */
    constructor(store: Store<seq<LineItem>>, clientes: seq<Cliente>, vendedores: seq<Vendedor>,
                sucursales: seq<string>, depositos: seq<string>)
      modifies store
      ensures caido <==> !ConLote(old(store.GetItem(CartKey)).GetOr([]))
      ensures !caido ==> Valid()
      ensures this.store == store && this.clientes == clientes && this.vendedores == vendedores
      ensures !caido ==> items == RederivarTodos(Codigos, old(store.GetItem(CartKey)).GetOr([]), PYG)
      ensures !caido ==> store.entries == old(store.entries)[CartKey := items]
      ensures caido ==> items == old(store.GetItem(CartKey)).GetOr([]) && store.entries == old(store.entries)
      ensures moneda == PYG && cantidad == 1.0 && selectedItem.None?
      ensures descuentoTipo == Porcentaje && descuentoValor == 0.0 && clienteSeleccionado.None?
      ensures sucursal == (if sucursales == [] then "" else sucursales[0])
      ensures deposito == (if depositos == [] then "" else depositos[0])
      ensures vendedor == "" && operador == ""
    {
      this.store := store;
      this.clientes := clientes;
      this.vendedores := vendedores;
      var guardados := store.GetItem(CartKey).GetOr([]);
      var montable := ConLote(guardados);
      items := if montable then RederivarTodos(Codigos, guardados, PYG) else guardados;
      caido := !montable;
      moneda := PYG;
      cantidad := 1.0;
      selectedItem := None;
      articuloBusqueda := "";
      recomendaciones := [];
      descuentoTipo := Porcentaje;
      descuentoValor := 0.0;
      clienteSeleccionado := None;
      clienteBusqueda := "";
      recomendacionesClientes := [];
      sucursal := if sucursales == [] then "" else sucursales[0];
      deposito := if depositos == [] then "" else depositos[0];
      vendedor := "";
      operador := "";
      buscarVendedor := "";
      recomendacionesVendedores := [];
      newPresupuestoID := None;
      isModalOpen := false;
      new;
      if montable {
        store.SetItem(CartKey, items);
      }
    }

    /**
     * `handleBusqueda` with its debounced fetch: the query is set, and the recommendations
     * become the articles the server answers with (`None` for a failed request), or none
     * for an empty query or a failed request.
     */
    method HandleBusqueda(busqueda: string, respuesta: Option<seq<Articulo>>)
      requires Valid()
      modifies this
      ensures Valid()
      ensures articuloBusqueda == busqueda
      ensures |busqueda| > 0 && respuesta.Some? ==> recomendaciones == respuesta.value
      ensures |busqueda| == 0 || respuesta.None? ==> recomendaciones == []
      ensures selectedItem == old(selectedItem) && items == old(items) && moneda == old(moneda)
    {
      articuloBusqueda := busqueda;
      if |busqueda| > 0 {
        recomendaciones := if respuesta.Some? then respuesta.value else [];
      } else {
        recomendaciones := [];
      }
    }

    /** Choosing an article from the recommendations. */
    method SeleccionarArticulo(a: Articulo)
      requires Valid()
      modifies this
      ensures Valid()
      ensures selectedItem == Some(a) && articuloBusqueda == a.ar_descripcion && recomendaciones == []
      ensures items == old(items) && moneda == old(moneda) && cantidad == old(cantidad)
    {
      articuloBusqueda := a.ar_descripcion;
      selectedItem := Some(a);
      recomendaciones := [];
    }

    /**
     * Enter in the article search (`selectFirstArticulo`): with recommendations, the first
     * one is chosen as a click would choose it; without any, nothing changes.
     */
    method SelectFirstArticulo() returns (r: bool)
      requires Valid()
      modifies this
      ensures Valid()
      ensures r <==> old(recomendaciones) != []
      ensures r ==> && selectedItem == Some(old(recomendaciones)[0])
                    && articuloBusqueda == old(recomendaciones)[0].ar_descripcion
                    && recomendaciones == []
      ensures !r ==> unchanged(this)
      ensures items == old(items) && cantidad == old(cantidad)
    {
      if |recomendaciones| > 0 {
        SeleccionarArticulo(recomendaciones[0]);
        r := true;
      } else {
        r := false;
      }
    }

    /** The quantity input (`parseInt` of the field). */
    method SetCantidad(n: int)
      requires Valid()
      modifies this
      ensures Valid()
      ensures cantidad == n as real && items == old(items) && selectedItem == old(selectedItem)
    {
      cantidad := n as real;
    }

    /**
     * `agregarItem`: with an article selected, exactly one derived line is appended and
     * stored, and the quantity, search text and selection are reset; without one, nothing
     * changes.
     */
    method AgregarItem()
      requires Valid()
      modifies this, store
      ensures Valid()
      ensures old(selectedItem).Some? ==>
        && items == old(items) + [NuevoItem(Codigos, old(selectedItem).value, old(cantidad), moneda,
                                           Some(Lote(old(selectedItem).value.al_vencimiento, old(selectedItem).value.al_codigo)))]
        && cantidad == 1.0 && selectedItem.None? && articuloBusqueda == ""
        && store.entries == old(store.entries)[CartKey := items]
      ensures old(selectedItem).None? ==> unchanged(this) && unchanged(store)
      ensures moneda == old(moneda) && descuentoTipo == old(descuentoTipo) && descuentoValor == old(descuentoValor)
      ensures clienteSeleccionado == old(clienteSeleccionado)
    {
      if selectedItem.Some? {
        var a := selectedItem.value;
        var nuevoItem := NuevoItem(Codigos, a, cantidad, moneda, Some(Lote(a.al_vencimiento, a.al_codigo)));
        var newItems := items + [nuevoItem];
        items := newItems;
        store.SetItem(CartKey, newItems);
        articuloBusqueda := "";
        cantidad := 1.0;
        selectedItem := None;
      }
    }

    /** `eliminarItem`: the line at `index` goes, the others keep their order; any other index changes nothing. */
    method EliminarItem(index: int)
      requires Valid()
      modifies this, store
      ensures Valid()
      ensures 0 <= index < |old(items)| ==> items == old(items)[..index] + old(items)[index + 1..]
      ensures !(0 <= index < |old(items)|) ==> items == old(items)
      ensures store.entries == old(store.entries)[CartKey := items]
      ensures moneda == old(moneda) && selectedItem == old(selectedItem) && cantidad == old(cantidad)
      ensures descuentoTipo == old(descuentoTipo) && descuentoValor == old(descuentoValor)
    {
      var newItems := QuitarIndice(items, index);
      items := newItems;
      store.SetItem(CartKey, newItems);
    }

    /**
     * Choosing a currency. When it differs from the current one, the currency effect
     * re-derives every line and the cart effect stores the result; the fixed-amount rescale
     * only runs for the `"valor"` type, which the discount select never produces.
     */
    method CambiarMoneda(m: Moneda)
      requires Valid()
      modifies this, store
      ensures Valid()
      ensures moneda == m && items == RederivarTodos(Codigos, old(items), m)
      ensures m == old(moneda) ==> items == old(items)
      ensures |items| == |old(items)|
      ensures forall i :: 0 <= i < |items| ==> items[i].cantidad == old(items)[i].cantidad && items[i].id == old(items)[i].id
      ensures descuentoTipo == old(descuentoTipo) && descuentoValor == old(descuentoValor)
      ensures selectedItem == old(selectedItem) && clienteSeleccionado == old(clienteSeleccionado)
      ensures store.entries == old(store.entries)[CartKey := items]
    {
      if m != moneda {
        moneda := m;
        var rederivados := RederivarTodos(Codigos, items, m);
        items := rederivados;
        store.SetItem(CartKey, rederivados);
        descuentoValor := if descuentoTipo == Valor then ReescalarDescuento(descuentoValor, m) else descuentoValor;
      }
    }

    /** The discount-type select: the new type, and the amount back to zero. */
    method SetDescuentoTipo(tipo: string)
      requires Valid() && tipo in OpcionesDescuento
      modifies this
      ensures Valid()
      ensures descuentoTipo == tipo && descuentoValor == 0.0
      ensures items == old(items) && moneda == old(moneda)
    {
      descuentoTipo := tipo;
      descuentoValor := 0.0;
    }

    /** The discount input (`parseInt` of the field). */
    method SetDescuentoValor(v: int)
      requires Valid()
      modifies this
      ensures Valid()
      ensures descuentoValor == v as real && descuentoTipo == old(descuentoTipo) && items == old(items)
    {
      descuentoValor := v as real;
    }

    /** `handleBusquedaCliente`: the query and its recommendations (none for an empty query). */
    method HandleBusquedaCliente(q: string)
      requires Valid()
      modifies this
      ensures Valid()
      ensures clienteBusqueda == q
      ensures recomendacionesClientes == Recomendar(q, clientes, CoincideCliente(q))
      ensures clienteSeleccionado == old(clienteSeleccionado) && items == old(items)
    {
      clienteBusqueda := q;
      if |q| > 0 {
        recomendacionesClientes := Take(Filter(clientes, CoincideCliente(q)), MaxRecomendaciones);
      } else {
        recomendacionesClientes := [];
      }
    }

    /** Choosing a client from the recommendations. */
    method SeleccionarCliente(c: Cliente)
      requires Valid()
      modifies this
      ensures Valid()
      ensures clienteSeleccionado == Some(c) && clienteBusqueda == c.cli_razon && recomendacionesClientes == []
      ensures items == old(items)
    {
      clienteBusqueda := c.cli_razon;
      clienteSeleccionado := Some(c);
      recomendacionesClientes := [];
    }

    /**
     * Enter in the client search (`selectFirstCliente`): with recommendations, the first
     * one is chosen as a click would choose it; without any, nothing changes.
     */
    method SelectFirstCliente() returns (r: bool)
      requires Valid()
      modifies this
      ensures Valid()
      ensures r <==> old(recomendacionesClientes) != []
      ensures r ==> && clienteSeleccionado == Some(old(recomendacionesClientes)[0])
                    && clienteBusqueda == old(recomendacionesClientes)[0].cli_razon
                    && recomendacionesClientes == []
      ensures !r ==> unchanged(this)
      ensures items == old(items)
    {
      if |recomendacionesClientes| > 0 {
        SeleccionarCliente(recomendacionesClientes[0]);
        r := true;
      } else {
        r := false;
      }
    }

    /**
     * `handleBusquedaVendedor`: the recommendations, and the vendor set to the first of
     * them, or cleared when there is none or the query is empty.
     */
    method HandleBusquedaVendedor(q: string)
      requires Valid()
      modifies this
      ensures Valid()
      ensures buscarVendedor == q
      ensures recomendacionesVendedores == Recomendar(q, vendedores, CoincideVendedor(q))
      ensures recomendacionesVendedores != [] ==>
        vendedor == recomendacionesVendedores[0].op_nombre && operador == recomendacionesVendedores[0].op_codigo
      ensures recomendacionesVendedores == [] ==> vendedor == "" && operador == ""
      ensures items == old(items) && clienteSeleccionado == old(clienteSeleccionado)
    {
      buscarVendedor := q;
      if |q| > 0 {
        var filteredVendedores := Take(Filter(vendedores, CoincideVendedor(q)), MaxRecomendaciones);
        recomendacionesVendedores := filteredVendedores;
        if |filteredVendedores| > 0 {
          vendedor := filteredVendedores[0].op_nombre;
          operador := filteredVendedores[0].op_codigo;
        } else {
          vendedor := "";
          operador := "";
        }
      } else {
        recomendacionesVendedores := [];
        vendedor := "";
        operador := "";
      }
    }

    /** Choosing a vendor from the recommendations. */
    method SeleccionarVendedor(v: Vendedor)
      requires Valid()
      modifies this
      ensures Valid()
      ensures buscarVendedor == v.op_codigo && vendedor == v.op_nombre && operador == v.op_codigo
      ensures recomendacionesVendedores == [] && items == old(items)
    {
      buscarVendedor := v.op_codigo;
      vendedor := v.op_nombre;
      operador := v.op_codigo;
      recomendacionesVendedores := [];
    }

    /**
     * Enter in the vendor search (`selectFirstVendedor`): with recommendations, the first
     * one is taken as a click would take it; without any, nothing changes.
     */
    method SelectFirstVendedor() returns (r: bool)
      requires Valid()
      modifies this
      ensures Valid()
      ensures r <==> old(recomendacionesVendedores) != []
      ensures r ==> && vendedor == old(recomendacionesVendedores)[0].op_nombre
                    && operador == old(recomendacionesVendedores)[0].op_codigo
                    && buscarVendedor == old(recomendacionesVendedores)[0].op_codigo
                    && recomendacionesVendedores == []
      ensures !r ==> unchanged(this)
      ensures items == old(items)
    {
      if |recomendacionesVendedores| > 0 {
        SeleccionarVendedor(recomendacionesVendedores[0]);
        r := true;
      } else {
        r := false;
      }
    }

    /** The branch select. */
    method SetSucursal(s: string)
      requires Valid()
      modifies this
      ensures Valid()
      ensures sucursal == s && items == old(items)
    {
      sucursal := s;
    }

    /**
     * `finalizarPresupuesto`. The first missing datum (client, branch, deposit, vendor, a
     * line) stops it with nothing changed. Otherwise the quotation is posted; `respuesta`
     * is the body the server answers with (`None` for a failed request), and only a
     * nonzero body counts as success: then the cart, client, client search and discount
     * amount are cleared and the confirmation opens. A failure changes nothing. Every
     * posted detail line carries its batch.
     */
    method Finalizar(respuesta: Option<int>, parseInt: string -> int) returns (falta: Option<Falta>, enviado: Option<Envio>)
      requires Valid()
      requires PrimeraFalta(clienteSeleccionado, sucursal, deposito, vendedor, |items|).None?
               ==> ReparteDefinido(descuentoTipo, Subtotal(items))
      modifies this, store
      ensures Valid()
      ensures falta == PrimeraFalta(old(clienteSeleccionado), old(sucursal), old(deposito), old(vendedor), |old(items)|)
      ensures falta.Some? ==> enviado.None? && unchanged(this) && unchanged(store)
      ensures falta.None? ==> enviado == Some(ArmarEnvio(old(clienteSeleccionado).value, old(operador), old(sucursal),
                                                         old(deposito), old(items), old(descuentoTipo),
                                                         old(descuentoValor), old(moneda), parseInt))
      ensures falta.None? ==> forall i :: 0 <= i < |enviado.value.detalles| ==> enviado.value.detalles[i].lote.Some?
      ensures falta.None? && respuesta.Some? && respuesta.value != 0 ==>
        && items == [] && store.entries == old(store.entries)[CartKey := []]
        && clienteSeleccionado.None? && clienteBusqueda == "" && descuentoValor == 0.0
        && isModalOpen && newPresupuestoID == respuesta
        && moneda == old(moneda) && descuentoTipo == old(descuentoTipo)
      ensures falta.None? && (respuesta.None? || respuesta.value == 0) ==> unchanged(this) && unchanged(store)
    {
      falta := PrimeraFalta(clienteSeleccionado, sucursal, deposito, vendedor, |items|);
      if falta.Some? {
        enviado := None;
        return;
      }
      var presupuestoData := ArmarEnvio(clienteSeleccionado.value, operador, sucursal, deposito, items,
                                        descuentoTipo, descuentoValor, moneda, parseInt);
      enviado := Some(presupuestoData);
      if respuesta.Some? && respuesta.value != 0 {
        Cancelar();
        newPresupuestoID := respuesta;
        isModalOpen := true;
      }
    }

    /** `cancelarPresupuesto`: empties and stores the cart, clears the client and the discount amount. */
    method Cancelar()
      requires Valid()
      modifies this, store
      ensures Valid()
      ensures items == [] && store.entries == old(store.entries)[CartKey := []]
      ensures clienteSeleccionado.None? && clienteBusqueda == "" && descuentoValor == 0.0
      ensures moneda == old(moneda) && descuentoTipo == old(descuentoTipo) && sucursal == old(sucursal)
    {
      items := [];
      store.SetItem(CartKey, []);
      clienteSeleccionado := None;
      clienteBusqueda := "";
      descuentoValor := 0.0;
    }

    /** The posted total, as `calcularTotal` computes it from the current state. */
    function Total(): (t: real)
      reads this
      ensures t == CalcularTotal(Subtotal(items), descuentoTipo, descuentoValor, moneda)
      ensures descuentoTipo == Porcentaje && Subtotal(items) == 0.0 ==> t == 0.0
      ensures descuentoValor == 0.0 ==> t == Subtotal(items)
    {
      CalcularTotal(Subtotal(items), descuentoTipo, descuentoValor, moneda)
    }
  }
}
