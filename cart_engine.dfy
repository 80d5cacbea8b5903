/**
 * The cart, tax and discount engine shared by the quotation screen and the point-of-sale
 * screen. The two screens differ only in the tax codes they assign to the three IVA
 * columns, so the engine is parametrised by that code table.
 *
 * Money is exact (`real`). A line item keeps the catalogue price in guaraníes
 * (`precioOriginal`); its unit price and subtotal are in the selected currency, while its
 * three stored tax columns are computed from the unconverted price.
 */
module CartEngine {
  import opened Wrappers
  import opened Search

  // ---------------------------------------------------------------- currencies

  datatype Moneda = USD | PYG

  /** `tasasDeCambio`: units of the currency per guaraní. */
  function Tasa(m: Moneda): (r: real)
    ensures r > 0.0
    ensures m == PYG <==> r == 1.0
  {
    match m
    case USD => 0.00013
    case PYG => 1.0
  }

  /** The currency the rescale divides by: `moneda === 'USD' ? 'PYG' : 'USD'`. */
  function OtraMoneda(m: Moneda): (r: Moneda)
    ensures r != m
  {
    if m == USD then PYG else USD
  }

  /** `pre_moneda` / `ve_moneda`: 1 for guaraníes, 0 otherwise. */
  function CodigoMoneda(m: Moneda): (r: int)
    ensures r == 1 <==> m == PYG
    ensures r == 0 <==> m != PYG
  {
    if m == PYG then 1 else 0
  }

  // ---------------------------------------------------------------- tax columns

  /** The tax code that selects each IVA column; the two screens use different tables. */
  datatype CodigosIva = CodigosIva(cinco: int, diez: int, exentas: int) {
    predicate Conocido(impuesto: int) {
      impuesto == cinco || impuesto == diez || impuesto == exentas
    }
  }

  /** Quotation screen: 3 is 5%, 2 is 10%, 1 is exempt. */
  const CodigosPresupuesto := CodigosIva(3, 2, 1)
  /** Point-of-sale screen: 1 is 5%, 2 is 10%, 0 is exempt. */
  const CodigosVenta := CodigosIva(1, 2, 0)

  /** The three IVA columns of a price: `{ impuesto5, impuesto10, exentas }`. */
  datatype Montos = Montos(impuesto5: real, impuesto10: real, exentas: real) {
    function Total(): real {
      impuesto5 + impuesto10 + exentas
    }
  }

  datatype Columna = Cinco | Diez | Exentas

  function Monto(b: Montos, c: Columna): real {
    match c
    case Cinco => b.impuesto5
    case Diez => b.impuesto10
    case Exentas => b.exentas
  }

  /**
   * `calcularImpuesto`: a `switch` that puts the whole price into the column its code
   * selects (the first matching case wins), and zero everywhere for an unknown code.
   */
  function CalcularImpuesto(codigos: CodigosIva, precio: real, impuesto: int): (b: Montos)
    ensures impuesto == codigos.cinco ==> b == Montos(precio, 0.0, 0.0)
    ensures impuesto != codigos.cinco && impuesto == codigos.diez ==> b == Montos(0.0, precio, 0.0)
    ensures (impuesto != codigos.cinco && impuesto != codigos.diez && impuesto == codigos.exentas)
      ==> b == Montos(0.0, 0.0, precio)
    ensures !codigos.Conocido(impuesto) ==> b == Montos(0.0, 0.0, 0.0)
  {
    if impuesto == codigos.cinco then Montos(precio * 1.0, 0.0, 0.0)
    else if impuesto == codigos.diez then Montos(0.0, precio * 1.0, 0.0)
    else if impuesto == codigos.exentas then Montos(0.0, 0.0, precio)
    else Montos(0.0, 0.0, 0.0)
  }

  /** For a known code the three columns add up to the price; otherwise to zero. */
  lemma CalcularImpuestoSuma(codigos: CodigosIva, precio: real, impuesto: int)
    ensures CalcularImpuesto(codigos, precio, impuesto).Total() == if codigos.Conocido(impuesto) then precio else 0.0
  {
  }

  /** Splitting a converted price is converting the split of the unconverted price. */
  lemma CalcularImpuestoLineal(codigos: CodigosIva, precio: real, k: real, impuesto: int, c: Columna)
    ensures Monto(CalcularImpuesto(codigos, precio * k, impuesto), c)
         == Monto(CalcularImpuesto(codigos, precio, impuesto), c) * k
  {
    var a := CalcularImpuesto(codigos, precio * k, impuesto);
    var b := CalcularImpuesto(codigos, precio, impuesto);
    if impuesto == codigos.cinco {
      assert a == Montos(precio * k, 0.0, 0.0) && b == Montos(precio, 0.0, 0.0);
    } else if impuesto == codigos.diez {
      assert a == Montos(0.0, precio * k, 0.0) && b == Montos(0.0, precio, 0.0);
    } else if impuesto == codigos.exentas {
      assert a == Montos(0.0, 0.0, precio * k) && b == Montos(0.0, 0.0, precio);
    } else {
      assert a == b == Montos(0.0, 0.0, 0.0);
    }
  }

  /** The same stored code lands in different columns on the two screens. */
  lemma CodigosDifieren(precio: real)
    requires precio != 0.0
    ensures CalcularImpuesto(CodigosPresupuesto, precio, 1).exentas == precio
    ensures CalcularImpuesto(CodigosVenta, precio, 1).impuesto5 == precio
    ensures CalcularImpuesto(CodigosVenta, precio, 3) == Montos(0.0, 0.0, 0.0)
    ensures CalcularImpuesto(CodigosPresupuesto, precio, 0) == Montos(0.0, 0.0, 0.0)
  {
  }

  // ---------------------------------------------------------------- line items

  /** The batch a quotation line records: `vencimiento` and `lote` (from `al_codigo`). */
  datatype Lote = Lote(vencimiento: string, codigo: int)

  /** A catalogue article as the article search returns it. */
  datatype Articulo = Articulo(
    ar_codigo: int, ar_descripcion: string, ar_pvg: real, ar_iva: int,
    al_vencimiento: string, al_codigo: int)

  /** A cart line. Only the quotation screen fills in `lote`. */
  datatype LineItem = LineItem(
    id: int, nombre: string, precioOriginal: real, precioUnitario: real, cantidad: real,
    impuesto: int, montos: Montos, subtotal: real, lote: Option<Lote>)

  /**
   * A line is derived for a currency when its unit price and subtotal are the original
   * price converted to that currency, and its columns split the unconverted price.
   */
  predicate Derivado(codigos: CodigosIva, it: LineItem, m: Moneda) {
    && it.precioUnitario == it.precioOriginal * Tasa(m)
    && it.montos == CalcularImpuesto(codigos, it.precioOriginal, it.impuesto)
    && it.subtotal == it.precioUnitario * it.cantidad
  }

  predicate TodosDerivados(codigos: CodigosIva, items: seq<LineItem>, m: Moneda) {
    forall i :: 0 <= i < |items| ==> Derivado(codigos, items[i], m)
  }

  /** The line `agregarItem` builds from the selected article. */
  function NuevoItem(codigos: CodigosIva, a: Articulo, cantidad: real, m: Moneda, lote: Option<Lote>): (it: LineItem)
    ensures Derivado(codigos, it, m)
    ensures it.id == a.ar_codigo && it.nombre == a.ar_descripcion && it.precioOriginal == a.ar_pvg
    ensures it.cantidad == cantidad && it.impuesto == a.ar_iva && it.lote == lote
  {
    var precioEnMonedaActual := a.ar_pvg * Tasa(m);
    LineItem(a.ar_codigo, a.ar_descripcion, a.ar_pvg, precioEnMonedaActual, cantidad, a.ar_iva,
             CalcularImpuesto(codigos, a.ar_pvg, a.ar_iva), precioEnMonedaActual * cantidad, lote)
  }

  /** One line of the currency-change update: price, columns and subtotal are recomputed. */
  function Rederivar(codigos: CodigosIva, it: LineItem, m: Moneda): (r: LineItem)
    ensures Derivado(codigos, r, m)
    ensures r.id == it.id && r.nombre == it.nombre && r.precioOriginal == it.precioOriginal
    ensures r.cantidad == it.cantidad && r.impuesto == it.impuesto && r.lote == it.lote
    ensures Derivado(codigos, it, m) ==> r == it
  {
    var precioEnMonedaActual := it.precioOriginal * Tasa(m);
    it.(precioUnitario := precioEnMonedaActual,
        montos := CalcularImpuesto(codigos, it.precioOriginal, it.impuesto),
        subtotal := precioEnMonedaActual * it.cantidad)
  }

  /** The update reads nothing of a line but its original price, code, quantity and identity. */
  lemma RederivarSoloDeOrigen(codigos: CodigosIva, a: LineItem, b: LineItem, m: Moneda)
    requires a.id == b.id && a.nombre == b.nombre && a.precioOriginal == b.precioOriginal
    requires a.cantidad == b.cantidad && a.impuesto == b.impuesto && a.lote == b.lote
    ensures Rederivar(codigos, a, m) == Rederivar(codigos, b, m)
  {
  }

  /** The currency-change update of the whole cart (`prevItems.map(...)`). */
  function RederivarTodos(codigos: CodigosIva, items: seq<LineItem>, m: Moneda): (r: seq<LineItem>)
    ensures |r| == |items|
    ensures forall i :: 0 <= i < |items| ==> r[i] == Rederivar(codigos, items[i], m)
    ensures TodosDerivados(codigos, r, m)
    ensures TodosDerivados(codigos, items, m) ==> r == items
  {
    seq(|items|, i requires 0 <= i < |items| => Rederivar(codigos, items[i], m))
  }

  /** Applying the update twice for the same currency is applying it once. */
  lemma RederivarTodosIdempotente(codigos: CodigosIva, items: seq<LineItem>, m: Moneda)
    ensures RederivarTodos(codigos, RederivarTodos(codigos, items, m), m) == RederivarTodos(codigos, items, m)
  {
  }

  /**
   * Every line records a batch. The quotation screen reads `item.lote.toString()` for each
   * line on every render, so a line without one makes that render throw.
   */
  predicate ConLote(items: seq<LineItem>) {
    forall i :: 0 <= i < |items| ==> items[i].lote.Some?
  }

  /** `items.filter((_, i) => i !== index)`. */
  function QuitarIndice<T>(xs: seq<T>, index: int): (r: seq<T>)
    ensures 0 <= index < |xs| ==> r == xs[..index] + xs[index + 1..]
    ensures !(0 <= index < |xs|) ==> r == xs
    decreases |xs|
  {
    if xs == [] then []
    else (if index == 0 then [] else [xs[0]]) + QuitarIndice(xs[1..], index - 1)
  }

  // ---------------------------------------------------------------- totals

  /** `items.reduce((acc, item) => acc + item.subtotal, 0)`. */
  function Subtotal(items: seq<LineItem>): real {
    if items == [] then 0.0 else Subtotal(items[..|items| - 1]) + items[|items| - 1].subtotal
  }

  /**
   * What `calcularTotalExcentas`, `calcularTotal5` and `calcularTotal10` display: each line's
   * original price is converted to the current currency, split by its code, and the chosen
   * column is multiplied by the quantity.
   */
  function TotalColumna(codigos: CodigosIva, items: seq<LineItem>, m: Moneda, c: Columna): real {
    if items == [] then 0.0
    else TotalColumna(codigos, items[..|items| - 1], m, c) + AporteColumna(codigos, items[|items| - 1], m, c)
  }

  /** One line's share of a displayed column. */
  function AporteColumna(codigos: CodigosIva, it: LineItem, m: Moneda, c: Columna): real {
    Monto(CalcularImpuesto(codigos, it.precioOriginal * Tasa(m), it.impuesto), c) * it.cantidad
  }

  /** One line's converted value when its code is known. */
  function AporteConocido(codigos: CodigosIva, it: LineItem, m: Moneda): real {
    if codigos.Conocido(it.impuesto) then it.precioOriginal * Tasa(m) * it.cantidad else 0.0
  }

  /** Σ original price × rate × quantity over the lines whose tax code is known. */
  function ValorConocido(codigos: CodigosIva, items: seq<LineItem>, m: Moneda): real {
    if items == [] then 0.0
    else ValorConocido(codigos, items[..|items| - 1], m) + AporteConocido(codigos, items[|items| - 1], m)
  }

  /** Σ of one stored (unconverted) column times quantity. */
  function ColumnaGuardada(items: seq<LineItem>, c: Columna): real {
    if items == [] then 0.0
    else
      var it := items[|items| - 1];
      ColumnaGuardada(items[..|items| - 1], c) + Monto(it.montos, c) * it.cantidad
  }

  /** The three displayed columns add up to the value of the lines with a known code. */
  lemma {:induction false} ColumnasSuman(codigos: CodigosIva, items: seq<LineItem>, m: Moneda)
    ensures TotalColumna(codigos, items, m, Exentas) + TotalColumna(codigos, items, m, Cinco)
          + TotalColumna(codigos, items, m, Diez) == ValorConocido(codigos, items, m)
  {
    if items != [] {
      ColumnasSuman(codigos, items[..|items| - 1], m);
      ColumnasDeUnaLinea(codigos, items[|items| - 1], m);
    }
  }

  /** One line's three displayed columns add up to its known value. */
  lemma ColumnasDeUnaLinea(codigos: CodigosIva, it: LineItem, m: Moneda)
    ensures AporteColumna(codigos, it, m, Exentas) + AporteColumna(codigos, it, m, Cinco)
          + AporteColumna(codigos, it, m, Diez) == AporteConocido(codigos, it, m)
  {
    var p, q := it.precioOriginal * Tasa(m), it.cantidad;
    var b := CalcularImpuesto(codigos, p, it.impuesto);
    if it.impuesto == codigos.cinco {
      assert b == Montos(p, 0.0, 0.0);
    } else if it.impuesto == codigos.diez {
      assert b == Montos(0.0, p, 0.0);
    } else if it.impuesto == codigos.exentas {
      assert b == Montos(0.0, 0.0, p);
    } else {
      assert b == Montos(0.0, 0.0, 0.0);
    }
  }

  /** When every line is derived and every code is known, that value is the cart subtotal. */
  lemma {:induction false} ValorConocidoEsSubtotal(codigos: CodigosIva, items: seq<LineItem>, m: Moneda)
    requires TodosDerivados(codigos, items, m)
    requires forall i :: 0 <= i < |items| ==> codigos.Conocido(items[i].impuesto)
    ensures ValorConocido(codigos, items, m) == Subtotal(items)
  {
    if items != [] {
      ValorConocidoEsSubtotal(codigos, items[..|items| - 1], m);
    }
  }

  /**
   * The displayed columns re-convert prices, while the stored columns are unconverted:
   * on a derived cart each displayed column is the stored column times the rate.
   */
  lemma {:induction false} ColumnaMostradaReconvierte(codigos: CodigosIva, items: seq<LineItem>, m: Moneda, c: Columna)
    requires TodosDerivados(codigos, items, m)
    ensures TotalColumna(codigos, items, m, c) == ColumnaGuardada(items, c) * Tasa(m)
  {
    if items != [] {
      var it := items[|items| - 1];
      ColumnaMostradaReconvierte(codigos, items[..|items| - 1], m, c);
      CalcularImpuestoLineal(codigos, it.precioOriginal, Tasa(m), it.impuesto, c);
      var x := Monto(it.montos, c);
      var q := it.cantidad;
      assert x * Tasa(m) * q == x * q * Tasa(m);
    }
  }

  /** `calcularTotalExcentas` / `calcularTotal5` / `calcularTotal10`: a `forEach` accumulating one column. */
  method CalcularTotalColumna(codigos: CodigosIva, items: seq<LineItem>, m: Moneda, c: Columna) returns (total: real)
    ensures total == TotalColumna(codigos, items, m, c)
  {
    total := 0.0;
    var i := 0;
    while i < |items|
      invariant 0 <= i <= |items|
      invariant total == TotalColumna(codigos, items[..i], m, c)
    {
      var item := items[i];
      var precioEnMonedaActual := item.precioOriginal * Tasa(m);
      var impuestos := CalcularImpuesto(codigos, precioEnMonedaActual, item.impuesto);
      total := total + Monto(impuestos, c) * item.cantidad;
      assert items[..i + 1][..i] == items[..i];
      i := i + 1;
    }
    assert items[..i] == items;
  }

  /**
   * `calcularTotalImpuestos`: one `forEach` with three accumulators, returning their sum,
   * which is the value of the lines whose code is known.
   */
  method CalcularTotalImpuestos(codigos: CodigosIva, items: seq<LineItem>, m: Moneda) returns (total: real)
    ensures total == ValorConocido(codigos, items, m)
  {
    var totalImpuesto5, totalImpuesto10, totalExentas := 0.0, 0.0, 0.0;
    var i := 0;
    while i < |items|
      invariant 0 <= i <= |items|
      invariant totalImpuesto5 == TotalColumna(codigos, items[..i], m, Cinco)
      invariant totalImpuesto10 == TotalColumna(codigos, items[..i], m, Diez)
      invariant totalExentas == TotalColumna(codigos, items[..i], m, Exentas)
    {
      var item := items[i];
      var precioEnMonedaActual := item.precioOriginal * Tasa(m);
      var impuestos := CalcularImpuesto(codigos, precioEnMonedaActual, item.impuesto);
      totalImpuesto5 := totalImpuesto5 + impuestos.impuesto5 * item.cantidad;
      totalImpuesto10 := totalImpuesto10 + impuestos.impuesto10 * item.cantidad;
      totalExentas := totalExentas + impuestos.exentas * item.cantidad;
      assert items[..i + 1][..i] == items[..i];
      i := i + 1;
    }
    assert items[..i] == items;
    ColumnasSuman(codigos, items, m);
    total := totalImpuesto5 + totalImpuesto10 + totalExentas;
  }

  /** The point-of-sale "IVA 5%" figure: the 5% column divided by 20, i.e. 5% of it. */
  function IvaMostrado5(total5: real): (r: real)
    ensures r == total5 * 5.0 / 100.0
  {
    total5 / 20.0
  }

  /** The point-of-sale "IVA 10%" figure: the 10% column divided by 10, i.e. 10% of it. */
  function IvaMostrado10(total10: real): (r: real)
    ensures r == total10 * 10.0 / 100.0
  {
    total10 / 10.0
  }

  /**
   * The displayed figures are the tax on the column taken as a net amount; for a positive
   * column they exceed the tax contained in it when the column is a tax-inclusive amount
   * (5/105 and 10/110 of it).
   */
  lemma IvaMostradoSobreNeto(total5: real, total10: real)
    requires total5 > 0.0 && total10 > 0.0
    ensures IvaMostrado5(total5) > total5 * 5.0 / 105.0
    ensures IvaMostrado10(total10) > total10 * 10.0 / 110.0
  {
  }

  // ---------------------------------------------------------------- discount

  const Porcentaje := "porcentaje"
  /** The option values of the discount-type select. */
  const OpcionesDescuento: seq<string> := ["porcentaje", "monto"]
  /** The only other value the state type admits; its branch rescales the discount. */
  const Valor := "valor"

  /**
   * `calcularTotal`: in percentage mode the subtotal less that percentage of it; in any
   * other mode the subtotal less the discount amount converted by the current rate.
   */
  function CalcularTotal(subtotal: real, tipo: string, valor: real, m: Moneda): (total: real)
    ensures tipo == Porcentaje ==> total == subtotal * (100.0 - valor) / 100.0
    ensures tipo != Porcentaje ==> subtotal - total == valor * Tasa(m)
    ensures tipo != Porcentaje && m == PYG ==> total == subtotal - valor
  {
    if tipo == Porcentaje then subtotal - (subtotal * valor) / 100.0
    else subtotal - valor * Tasa(m)
  }

  /** `pre_descuento` / `ve_descuento`: the percentage of the subtotal, or the raw amount. */
  function DescuentoCabecera(items: seq<LineItem>, tipo: string, valor: real): (d: real)
    ensures tipo == Porcentaje ==> d == Subtotal(items) * (valor / 100.0)
    ensures tipo != Porcentaje ==> d == valor
  {
    if tipo == Porcentaje then Subtotal(items) * (valor / 100.0) else valor
  }

  /**
   * The posted total plus the posted discount is the subtotal exactly in percentage mode,
   * in guaraníes, or with no discount: in dollars the total deducts the converted amount
   * while the header reports the unconverted one.
   */
  lemma TotalMasDescuento(items: seq<LineItem>, tipo: string, valor: real, m: Moneda)
    ensures CalcularTotal(Subtotal(items), tipo, valor, m) + DescuentoCabecera(items, tipo, valor) == Subtotal(items)
        <==> tipo == Porcentaje || m == PYG || valor == 0.0
  {
    if tipo != Porcentaje && m == USD && valor != 0.0 {
      assert valor * Tasa(m) != valor;
    }
  }

  /** The currency-change rescale of a fixed discount: `prev / rate[other] × rate[moneda]`. */
  function ReescalarDescuento(prev: real, m: Moneda): (r: real)
    ensures r * Tasa(OtraMoneda(m)) == prev * Tasa(m)
  {
    prev / Tasa(OtraMoneda(m)) * Tasa(m)
  }

  /** Switching currency and back restores a rescaled discount. */
  lemma ReescalarIdaVuelta(v: real, m: Moneda)
    ensures ReescalarDescuento(ReescalarDescuento(v, m), OtraMoneda(m)) == v
  {
    var w := ReescalarDescuento(v, m);
    assert w * Tasa(OtraMoneda(m)) == v * Tasa(m);
    assert ReescalarDescuento(w, OtraMoneda(m)) * Tasa(m) == w * Tasa(OtraMoneda(m));
  }

  // ---------------------------------------------------------------- submit payload

  /** One posted detail line (`depre_*` / `deve_*`). */
  datatype Detalle = Detalle(
    articulo: int, cantidad: real, precio: real, descuento: real,
    exentas: real, cinco: real, diez: real, lote: Option<Lote>)

  function Max0(x: real): (r: real)
    ensures r >= 0.0 && r >= x && (r == x || r == 0.0)
  {
    if x > 0.0 then x else 0.0
  }

  /** `itemSubtotal`: unit price times quantity. */
  function ImporteLinea(it: LineItem): real {
    it.precioUnitario * it.cantidad
  }

  /** The per-line discount divides by the cart subtotal only outside percentage mode. */
  predicate ReparteDefinido(tipo: string, totalSubtotal: real) {
    tipo == Porcentaje || totalSubtotal != 0.0
  }

  /** `itemDescuento`: the line's share of the discount. */
  function DescuentoLinea(it: LineItem, tipo: string, valor: real, totalSubtotal: real): (d: real)
    requires ReparteDefinido(tipo, totalSubtotal)
    ensures tipo == Porcentaje ==> d == ImporteLinea(it) * (valor / 100.0)
    ensures tipo != Porcentaje ==> d == (ImporteLinea(it) / totalSubtotal) * valor
  {
    var itemSubtotal := ImporteLinea(it);
    if tipo == Porcentaje then itemSubtotal * (valor / 100.0)
    else (itemSubtotal / totalSubtotal) * valor
  }

  /** A posted detail line: each stored column times quantity less the line's discount, floored at zero. */
  function DetalleDe(it: LineItem, tipo: string, valor: real, totalSubtotal: real): (d: Detalle)
    requires ReparteDefinido(tipo, totalSubtotal)
    ensures d.descuento == DescuentoLinea(it, tipo, valor, totalSubtotal)
    ensures d.exentas == Max0(it.montos.exentas * it.cantidad - d.descuento)
    ensures d.cinco == Max0(it.montos.impuesto5 * it.cantidad - d.descuento)
    ensures d.diez == Max0(it.montos.impuesto10 * it.cantidad - d.descuento)
    ensures d.exentas >= 0.0 && d.cinco >= 0.0 && d.diez >= 0.0
    ensures d.articulo == it.id && d.cantidad == it.cantidad && d.precio == it.precioUnitario && d.lote == it.lote
  {
    var itemDescuento := DescuentoLinea(it, tipo, valor, totalSubtotal);
    var q := it.cantidad;
    Detalle(it.id, it.cantidad, it.precioUnitario, itemDescuento,
            Max0(it.montos.exentas * q - itemDescuento),
            Max0(it.montos.impuesto5 * q - itemDescuento),
            Max0(it.montos.impuesto10 * q - itemDescuento),
            it.lote)
  }

  /** The detail lines for a fixed cart subtotal, one per cart line, in cart order. */
  function DetallesCon(items: seq<LineItem>, tipo: string, valor: real, totalSubtotal: real): (ds: seq<Detalle>)
    requires ReparteDefinido(tipo, totalSubtotal)
    ensures |ds| == |items|
    ensures forall i :: 0 <= i < |items| ==> ds[i] == DetalleDe(items[i], tipo, valor, totalSubtotal)
  {
    if items == [] then []
    else DetallesCon(items[..|items| - 1], tipo, valor, totalSubtotal) + [DetalleDe(items[|items| - 1], tipo, valor, totalSubtotal)]
  }

  /** `detalle_presupuesto` / `detalle_ventas`. */
  function Detalles(items: seq<LineItem>, tipo: string, valor: real): (ds: seq<Detalle>)
    requires items == [] || ReparteDefinido(tipo, Subtotal(items))
    ensures |ds| == |items|
    ensures items != [] ==> forall i :: 0 <= i < |items| ==> ds[i] == DetalleDe(items[i], tipo, valor, Subtotal(items))
    ensures forall i :: 0 <= i < |items| ==> ds[i].articulo == items[i].id && ds[i].cantidad == items[i].cantidad
    ensures forall i :: 0 <= i < |ds| ==> ds[i].exentas >= 0.0 && ds[i].cinco >= 0.0 && ds[i].diez >= 0.0
    ensures forall i :: 0 <= i < |ds| ==> ds[i].lote == items[i].lote
  {
    if items == [] then [] else DetallesCon(items, tipo, valor, Subtotal(items))
  }

  function SumaDescuentos(ds: seq<Detalle>): real {
    if ds == [] then 0.0 else SumaDescuentos(ds[..|ds| - 1]) + ds[|ds| - 1].descuento
  }

  /** Σ unit price × quantity, the amount each line's discount share is taken from. */
  function SumaLineas(items: seq<LineItem>): real {
    if items == [] then 0.0 else SumaLineas(items[..|items| - 1]) + ImporteLinea(items[|items| - 1])
  }

  /** A line's subtotal is its unit price times its quantity. */
  predicate SubtotalesCoherentes(items: seq<LineItem>) {
    forall i :: 0 <= i < |items| ==> items[i].subtotal == ImporteLinea(items[i])
  }

  lemma {:induction false} SumaLineasEsSubtotal(items: seq<LineItem>)
    requires SubtotalesCoherentes(items)
    ensures SumaLineas(items) == Subtotal(items)
  {
    if items != [] {
      SumaLineasEsSubtotal(items[..|items| - 1]);
    }
  }

  // Proof helpers for the discount sums below: the nonlinear steps on reals, one per lemma.

  lemma MulSuma(a: real, b: real, c: real, w: real)
    requires a == b + c
    ensures a * w == b * w + c * w
  {
  }

  lemma DivSuma(a: real, b: real, c: real, t: real, v: real)
    requires a == b + c && t != 0.0
    ensures (a / t) * v == (b / t) * v + (c / t) * v
  {
    assert a / t == b / t + c / t;
  }

  lemma DivPropia(a: real, t: real, v: real)
    requires a == t && t != 0.0
    ensures (a / t) * v == v
  {
  }

  lemma MulIgual(a: real, b: real, w: real)
    requires a == b
    ensures a * w == b * w
  {
  }

  /** Σ of the lines' discount shares. */
  function SumaDescuentosLinea(items: seq<LineItem>, tipo: string, valor: real, t: real): real
    requires ReparteDefinido(tipo, t)
  {
    if items == [] then 0.0
    else SumaDescuentosLinea(items[..|items| - 1], tipo, valor, t) + DescuentoLinea(items[|items| - 1], tipo, valor, t)
  }

  /** The posted detail lines carry exactly those shares. */
  lemma {:induction false} SumaDescuentosDetalles(items: seq<LineItem>, tipo: string, valor: real, t: real)
    requires ReparteDefinido(tipo, t)
    ensures SumaDescuentos(DetallesCon(items, tipo, valor, t)) == SumaDescuentosLinea(items, tipo, valor, t)
  {
    if items != [] {
      var ds := DetallesCon(items, tipo, valor, t);
      assert ds[..|ds| - 1] == DetallesCon(items[..|items| - 1], tipo, valor, t);
      SumaDescuentosDetalles(items[..|items| - 1], tipo, valor, t);
    }
  }

  /** The discount shares of the lines add up to the share of their combined amount. */
  lemma {:induction false} SumaDescuentosCon(items: seq<LineItem>, tipo: string, valor: real, t: real)
    requires ReparteDefinido(tipo, t)
    ensures tipo == Porcentaje ==> SumaDescuentosLinea(items, tipo, valor, t) == SumaLineas(items) * (valor / 100.0)
    ensures tipo != Porcentaje ==> SumaDescuentosLinea(items, tipo, valor, t) == (SumaLineas(items) / t) * valor
  {
    if items != [] {
      var init, it := items[..|items| - 1], items[|items| - 1];
      SumaDescuentosCon(init, tipo, valor, t);
      if tipo == Porcentaje {
        MulSuma(SumaLineas(items), SumaLineas(init), ImporteLinea(it), valor / 100.0);
      } else {
        DivSuma(SumaLineas(items), SumaLineas(init), ImporteLinea(it), t, valor);
      }
    }
  }

  /**
   * The per-line discounts add up to the posted header discount: in percentage mode always,
   * and in fixed-amount mode whenever the subtotal is nonzero.
   */
  lemma DescuentosSumanCabecera(items: seq<LineItem>, tipo: string, valor: real)
    requires SubtotalesCoherentes(items)
    requires ReparteDefinido(tipo, Subtotal(items))
    ensures SumaDescuentos(Detalles(items, tipo, valor)) == DescuentoCabecera(items, tipo, valor)
  {
    if items != [] {
      var total := Subtotal(items);
      SumaDescuentosDetalles(items, tipo, valor, total);
      SumaLineasEsSubtotal(items);
      SumaDescuentosLineaCabecera(items, tipo, valor);
    }
  }

  /** The lines' shares, taken against the cart subtotal, add up to the header discount. */
  lemma SumaDescuentosLineaCabecera(items: seq<LineItem>, tipo: string, valor: real)
    requires SumaLineas(items) == Subtotal(items)
    requires ReparteDefinido(tipo, Subtotal(items))
    ensures SumaDescuentosLinea(items, tipo, valor, Subtotal(items)) == DescuentoCabecera(items, tipo, valor)
  {
    var total := Subtotal(items);
    SumaDescuentosCon(items, tipo, valor, total);
    if tipo == Porcentaje {
      MulIgual(SumaLineas(items), total, valor / 100.0);
    } else {
      DivPropia(SumaLineas(items), total, valor);
    }
  }

  /** A derived cart has coherent subtotals. */
  lemma DerivadosCoherentes(codigos: CodigosIva, items: seq<LineItem>, m: Moneda)
    requires TodosDerivados(codigos, items, m)
    ensures SubtotalesCoherentes(items)
  {
  }

  /**
   * In dollars, with a fixed-amount discount, the lines share out the unconverted amount
   * while the posted total deducts the converted one.
   */
  lemma DescuentoFijoEnDolares(items: seq<LineItem>, tipo: string, valor: real)
    requires SubtotalesCoherentes(items)
    requires tipo != Porcentaje && Subtotal(items) != 0.0 && valor != 0.0
    ensures SumaDescuentos(Detalles(items, tipo, valor))
         != Subtotal(items) - CalcularTotal(Subtotal(items), tipo, valor, USD)
  {
    DescuentosSumanCabecera(items, tipo, valor);
  }

  /**
   * The posted quotation or sale: header figures and detail lines. `operador` and
   * `vendedor` are the two header fields the screens fill from the logged-in operator.
   */
  datatype Envio = Envio(
    cliente: int, operador: int, vendedor: int, sucursal: int, deposito: int,
    moneda: int, descuento: real, total: real, detalles: seq<Detalle>)

  /** `operador ? parseInt(operador) : 1`: the operator code, or 1 when none is set. */
  function OperadorPosteado(operador: string, parseInt: string -> int): int {
    if operador == "" then 1 else parseInt(operador)
  }

  /**
   * `presupuestoData` / `ventaData`, the figures the screen posts. `parseInt` is the
   * text-to-number conversion the screens apply to the operator, branch and deposit.
   */
  function ArmarEnvio(cliente: Cliente, operador: string, sucursal: string, deposito: string,
                      items: seq<LineItem>, tipo: string, valor: real, m: Moneda,
                      parseInt: string -> int): (e: Envio)
    requires items == [] || ReparteDefinido(tipo, Subtotal(items))
    ensures e.cliente == cliente.cli_codigo && e.moneda == CodigoMoneda(m)
    ensures e.operador == e.vendedor
    ensures operador == "" ==> e.operador == 1
    ensures operador != "" ==> e.operador == parseInt(operador)
    ensures e.sucursal == parseInt(sucursal) && e.deposito == parseInt(deposito)
    ensures e.descuento == DescuentoCabecera(items, tipo, valor)
    ensures e.total == CalcularTotal(Subtotal(items), tipo, valor, m)
    ensures e.detalles == Detalles(items, tipo, valor) && |e.detalles| == |items|
    ensures tipo == Porcentaje ==> e.total + e.descuento == Subtotal(items)
    ensures tipo != Porcentaje ==> e.descuento == valor && e.total == Subtotal(items) - valor * Tasa(m)
  {
    var codigoOperador := OperadorPosteado(operador, parseInt);
    Envio(cliente.cli_codigo, codigoOperador, codigoOperador, parseInt(sucursal), parseInt(deposito),
          CodigoMoneda(m), DescuentoCabecera(items, tipo, valor),
          CalcularTotal(Subtotal(items), tipo, valor, m), Detalles(items, tipo, valor))
  }

  // ---------------------------------------------------------------- submit guards

  /** What the submit handler complains about, checked in this order. */
  datatype Falta = FaltaCliente | FaltaSucursal | FaltaDeposito | FaltaVendedor | FaltanItems

  /** The first missing datum, or `None` when the sale or quotation may be posted. */
  function PrimeraFalta(cliente: Option<Cliente>, sucursal: string, deposito: string, vendedor: string, items: nat): (r: Option<Falta>)
    ensures r.None? <==> cliente.Some? && sucursal != "" && deposito != "" && vendedor != "" && items > 0
    ensures r == Some(FaltaCliente) <==> cliente.None?
    ensures r == Some(FaltaSucursal) <==> cliente.Some? && sucursal == ""
    ensures r == Some(FaltaDeposito) <==> cliente.Some? && sucursal != "" && deposito == ""
    ensures r == Some(FaltaVendedor) <==> cliente.Some? && sucursal != "" && deposito != "" && vendedor == ""
    ensures r == Some(FaltanItems) <==> cliente.Some? && sucursal != "" && deposito != "" && vendedor != "" && items == 0
  {
    if cliente.None? then Some(FaltaCliente)
    else if sucursal == "" then Some(FaltaSucursal)
    else if deposito == "" then Some(FaltaDeposito)
    else if vendedor == "" then Some(FaltaVendedor)
    else if items == 0 then Some(FaltanItems)
    else None
  }

  /** `getCreditColor`: red for a negative credit line, grey for none, green otherwise. */
  function GetCreditColor(credit: real): (r: string)
    ensures r == "red.500" <==> credit < 0.0
    ensures r == "gray.500" <==> credit == 0.0
    ensures r == "green.500" <==> credit > 0.0
  {
    if credit < 0.0 then "red.500" else if credit == 0.0 then "gray.500" else "green.500"
  }

  /** The storage key both screens keep their cart under. */
  const CartKey := "cartItems"
}
