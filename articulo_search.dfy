/**
 * The article search component of the point-of-sale screen
 * (`src/views/puntodeventa/components/ArticuloSearch.tsx`): a query box with a dropdown of
 * matching articles, a quantity box, and an add button that hands the parent one cart line
 * priced with the additive tax rule.
 */
module ArticuloSearch {
  import opened Wrappers
  import opened Tipos
  import opened ImpuestoUtils
  import Search

  /**
   * The line `handleAgregar` hands to `agregarItem`: no currency conversion, the tax on the
   * unit price times the quantity, and a subtotal that includes the tax.
   */
  function NuevoItem(a: Articulo, cantidad: real, impuestos: seq<string>): (r: Item)
    ensures r.id == a.id && r.nombre == a.nombre && r.codigo == a.codigo
    ensures r.precio == a.precio && r.precioOriginal == a.precio && r.precioUnitario == a.precio
    ensures r.cantidad == cantidad
    ensures r.impuesto == a.precio * cantidad * TasaCombinada(impuestos)
    ensures r.subtotal == r.precioUnitario * r.cantidad + r.impuesto
  {
    var impuesto := a.precio * TasaCombinada(impuestos);
    Item(a.id, a.nombre, a.precio, a.codigo, a.precio, a.precio, cantidad, impuesto * cantidad, (a.precio + impuesto) * cantidad)
  }

  /** With only the 10% label, a line's subtotal is 110% of its net amount. */
  lemma SubtotalConDiez(a: Articulo, cantidad: real)
    ensures NuevoItem(a, cantidad, ["10%"]).subtotal == 1.10 * a.precio * cantidad
  {
  }

  class Component {
    /** The parent's catalogue and rate labels. */
    const articulos: seq<Articulo>
    const impuestos: seq<string>

    var busqueda: string
    var cantidad: real
    var selectedItem: Option<Articulo>

    constructor(articulos: seq<Articulo>, impuestos: seq<string>)
      ensures this.articulos == articulos && this.impuestos == impuestos
      ensures busqueda == "" && cantidad == 1.0 && selectedItem.None?
    {
      this.articulos := articulos;
      this.impuestos := impuestos;
      busqueda := "";
      cantidad := 1.0;
      selectedItem := None;
    }

    /** `handleBusqueda`: typing replaces the query and drops the selection. */
    method HandleBusqueda(q: string)
      modifies this
      ensures busqueda == q && selectedItem.None? && cantidad == old(cantidad)
    {
      busqueda := q;
      selectedItem := None;
    }

    /** `handleSeleccion`: the article becomes the selection and its name the query. */
    method HandleSeleccion(a: Articulo)
      modifies this
      ensures selectedItem == Some(a) && busqueda == a.nombre && cantidad == old(cantidad)
    {
      selectedItem := Some(a);
      busqueda := a.nombre;
    }

    /** The quantity box (`parseInt` of the field). */
    method SetCantidad(n: int)
      modifies this
      ensures cantidad == n as real && busqueda == old(busqueda) && selectedItem == old(selectedItem)
    {
      cantidad := n as real;
    }

    /**
     * `handleAgregar`: with a selection, the line handed to the parent (`agregado`) and the
     * query, quantity and selection reset; without one, nothing happens.
     */
    method HandleAgregar() returns (agregado: Option<Item>)
      modifies this
      ensures old(selectedItem).Some? ==>
        && agregado == Some(NuevoItem(old(selectedItem).value, old(cantidad), impuestos))
        && busqueda == "" && cantidad == 1.0 && selectedItem.None?
      ensures old(selectedItem).None? ==> agregado.None? && unchanged(this)
    {
      if selectedItem.Some? {
        var a := selectedItem.value;
        var precioEnMonedaActual := a.precio;
        var impuesto := CalcularImpuesto(precioEnMonedaActual, impuestos);
        var nuevoItem := Item(a.id, a.nombre, a.precio, a.codigo, a.precio, precioEnMonedaActual,
                              cantidad, impuesto * cantidad, (precioEnMonedaActual + impuesto) * cantidad);
        assert nuevoItem == NuevoItem(a, cantidad, impuestos);
        agregado := Some(nuevoItem);
        busqueda := "";
        cantidad := 1.0;
        selectedItem := None;
      } else {
        agregado := None;
      }
    }

    /**
     * The dropdown: shown only while there is a query and no selection, it lists the first
     * five catalogue articles whose name or code contains the query, ignoring case.
     */
    function Dropdown(): (r: seq<Articulo>)
      reads this
      ensures busqueda == "" || selectedItem.Some? ==> r == []
      ensures selectedItem.None? ==> r == Search.Recomendar(busqueda, articulos, CoincideArticulo(busqueda))
      ensures |r| <= Search.MaxRecomendaciones
      ensures forall i :: 0 <= i < |r| ==> r[i] in articulos && ArticuloCoincide(busqueda, r[i])
    {
      if busqueda != "" && selectedItem.None? then
        Search.Take(Search.Filter(articulos, CoincideArticulo(busqueda)), Search.MaxRecomendaciones)
      else []
    }

    /** The add button is disabled exactly while nothing is selected. */
    function AgregarDeshabilitado(): (r: bool)
      reads this
      ensures r <==> selectedItem.None?
    {
      selectedItem.None?
    }
  }
}
