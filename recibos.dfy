/**
 * The arithmetic and labels of the printed receipts: the quotation receipt in its plain and
 * styled layouts, the sale receipt, and the fixed-width "last sale" ticket. Values that
 * arrive untyped from the server are modelled as JavaScript values.
 */
module Recibos {
  import opened Wrappers
  import opened JsStrings
  import CartEngine

  // ---------------------------------------------------------------- untyped values

  /** A JavaScript value as the receipts receive it. */
  datatype JsValue = JsString(s: string) | JsNumber(n: real) | JsBool(b: bool) | JsNull | JsUndefined

  /** JavaScript truthiness (NaN is not modelled). */
  predicate Falsy(v: JsValue) {
    v == JsString("") || v == JsNumber(0.0) || v == JsBool(false) || v == JsNull || v == JsUndefined
  }

  /**
   * `String(v)` for a truthy non-string value; `numeroATexto` is JavaScript's number
   * formatting, which the model takes as given.
   */
  function Texto(v: JsValue, numeroATexto: real -> string): string {
    match v
    case JsString(s) => s
    case JsNumber(n) => numeroATexto(n)
    case JsBool(b) => if b then "true" else "false"
    case JsNull => "null"
    case JsUndefined => "undefined"
  }

  /** `safeString`: strings unchanged, falsy values as the empty string, anything else through `String`. */
  function SafeString(v: JsValue, numeroATexto: real -> string): (r: string)
    ensures v.JsString? ==> r == v.s
    ensures !v.JsString? && Falsy(v) ==> r == ""
    ensures !v.JsString? && !Falsy(v) ==> r == Texto(v, numeroATexto)
    ensures v.JsBool? && v.b ==> r == "true"
  {
    if v.JsString? then v.s
    else if v == JsNumber(0.0) || v == JsBool(false) || v == JsNull || v == JsUndefined then ""
    else Texto(v, numeroATexto)
  }

  /** `safeNumber`: numbers unchanged, anything else as zero. */
  function SafeNumber(v: JsValue): (r: real)
    ensures v.JsNumber? ==> r == v.n
    ensures !v.JsNumber? ==> r == 0.0
  {
    if v.JsNumber? then v.n else 0.0
  }

  // ---------------------------------------------------------------- labels

  /** The currency label: `GUARANI` for code 1, `USD` for anything else. */
  function MonedaLabel(moneda: int): (r: string)
    ensures r == "GUARANI" <==> moneda == 1
    ensures r == "USD" <==> moneda != 1
  {
    if moneda == 1 then "GUARANI" else "USD"
  }

  /** The sale-condition label: `Credito` for 1, `Contado` for anything else. */
  function CondicionLabel(credito: int): (r: string)
    ensures r == "Credito" <==> credito == 1
    ensures r == "Contado" <==> credito != 1
  {
    if credito == 1 then "Credito" else "Contado"
  }

  /** The ticket's deposit label: `Casa Central` for the number 1, otherwise `safeString(null)`. */
  function DepositoLabel(deposito: JsValue, numeroATexto: real -> string): (r: string)
    ensures r == "Casa Central" <==> deposito == JsNumber(1.0)
    ensures deposito != JsNumber(1.0) ==> r == ""
  {
    SafeString(if deposito == JsNumber(1.0) then JsString("Casa Central") else JsNull, numeroATexto)
  }

  /** The posted currency code reads back as `GUARANI` exactly for guaraní carts. */
  lemma EtiquetaMonedaPosteada(m: CartEngine.Moneda)
    ensures MonedaLabel(CartEngine.CodigoMoneda(m)) == "GUARANI" <==> m == CartEngine.PYG
  {
  }

  // ---------------------------------------------------------------- quotation receipt

  /** A printed detail line: the fields the receipt arithmetic uses. */
  datatype DetalleRecibo = DetalleRecibo(cantidad: real, precio: real, descuento: real)

  /** The Valor column and the detail subtotal: quantity times price, less the line discount. */
  function ValorFila(d: DetalleRecibo): (r: real)
    ensures r + d.descuento == d.cantidad * d.precio
  {
    d.cantidad * d.precio - d.descuento
  }

  /** `total`: the sum of the row values. */
  function Total(ds: seq<DetalleRecibo>): real {
    if ds == [] then 0.0 else Total(ds[..|ds| - 1]) + ValorFila(ds[|ds| - 1])
  }

  /** `totalDescuentos`: the sum of the line discounts. */
  function TotalDescuentos(ds: seq<DetalleRecibo>): real {
    if ds == [] then 0.0 else TotalDescuentos(ds[..|ds| - 1]) + ds[|ds| - 1].descuento
  }

  /** The gross amount, quantity times price summed over the lines. */
  function SumaBruta(ds: seq<DetalleRecibo>): real {
    if ds == [] then 0.0 else SumaBruta(ds[..|ds| - 1]) + ds[|ds| - 1].cantidad * ds[|ds| - 1].precio
  }

  /** The row values already carry the discounts: their sum is the gross amount less all discounts. */
  lemma {:induction false} TotalEsBrutoMenosDescuentos(ds: seq<DetalleRecibo>)
    ensures Total(ds) == SumaBruta(ds) - TotalDescuentos(ds)
  {
    if ds != [] {
      TotalEsBrutoMenosDescuentos(ds[..|ds| - 1]);
    }
  }

  /** A receipt footer: item count, amount before discount, discount and total. */
  datatype Pie = Pie(totalItems: nat, totalSinDesc: real, descuento: real, total: real)

  /**
   * The footer both quotation layouts print: the line count, `total` under the label
   * "Total s/Desc." (although it is already net of the line discounts), the discount sum,
   * and `totalFinal = total - totalDescuentos`, which takes the discounts off a second time.
   */
  function PiePresupuesto(ds: seq<DetalleRecibo>): (r: Pie)
    ensures r.totalItems == |ds|
    ensures r.totalSinDesc == SumaBruta(ds) - TotalDescuentos(ds)
    ensures r.descuento == TotalDescuentos(ds)
    ensures r.total == SumaBruta(ds) - 2.0 * TotalDescuentos(ds)
  {
    TotalEsBrutoMenosDescuentos(ds);
    var total := Total(ds);
    var totalDescuentos := TotalDescuentos(ds);
    Pie(|ds|, total, totalDescuentos, total - totalDescuentos)
  }

  /** Whenever there is any discount, the printed final total is not the gross amount less the discounts. */
  lemma DescuentoRestadoDosVeces(ds: seq<DetalleRecibo>)
    requires TotalDescuentos(ds) != 0.0
    ensures PiePresupuesto(ds).total != SumaBruta(ds) - TotalDescuentos(ds)
    ensures PiePresupuesto(ds).total + TotalDescuentos(ds) == PiePresupuesto(ds).totalSinDesc
  {
  }

  // ---------------------------------------------------------------- sale receipt

  /** `calcularVentaSinDescuento`: the total before the discount. */
  function VentaSinDescuento(total: real, descuento: real): (r: real)
    ensures r - descuento == total
  {
    total + descuento
  }

  /** The sale receipt's "Total s/Desc.", with a missing total or discount read as zero. */
  function TotalSinDescuento(total: Option<real>, descuento: Option<real>): (r: real)
    ensures total.None? && descuento.None? ==> r == 0.0
    ensures total.None? && descuento.Some? ==> r == descuento.value
    ensures total.Some? && descuento.None? ==> r == total.value
    ensures total.Some? && descuento.Some? ==> r == total.value + descuento.value
  {
    VentaSinDescuento(total.GetOr(0.0), descuento.GetOr(0.0))
  }

  /**
   * The sale receipt's footer: the count of the printed detail rows, "Total s/Desc.", and
   * the posted discount and total as the server returns them.
   */
  function PieVenta(ds: seq<DetalleRecibo>, total: real, descuento: real): (r: Pie)
    ensures r.totalItems == |ds|
    ensures r.descuento == descuento && r.total == total
    ensures r.totalSinDesc == TotalSinDescuento(Some(total), Some(descuento))
    ensures r.totalSinDesc - r.descuento == r.total
  {
    Pie(|ds|, VentaSinDescuento(total, descuento), descuento, total)
  }

  /**
   * Printing a posted cart: adding the posted discount back to the posted total gives the
   * cart subtotal exactly when the discount was a percentage, the cart is in guaraníes, or
   * the discount is zero (a fixed discount in dollars is posted unconverted).
   */
  lemma SinDescuentoRecuperaSubtotal(items: seq<CartEngine.LineItem>, tipo: string, valor: real, m: CartEngine.Moneda)
    ensures TotalSinDescuento(Some(CartEngine.CalcularTotal(CartEngine.Subtotal(items), tipo, valor, m)),
                              Some(CartEngine.DescuentoCabecera(items, tipo, valor))) == CartEngine.Subtotal(items)
        <==> tipo == CartEngine.Porcentaje || m == CartEngine.PYG || valor == 0.0
  {
    CartEngine.TotalMasDescuento(items, tipo, valor, m);
  }

  // ---------------------------------------------------------------- last-sale ticket

  /** A ticket detail line as the server sends it. */
  datatype DetalleTicket = DetalleTicket(
    deve_articulo: JsValue, deve_descripcion: JsValue, deve_cantidad: JsValue,
    deve_precio: JsValue, deve_descuento: JsValue)

  const AnchoCodigo: nat := 6
  const AnchoDescripcion: nat := 20
  const AnchoCantidad: nat := 5
  const AnchoMonto: nat := 10

  /** The ticket's Valor column: quantity times price, with no discount taken off. */
  function ValorTicket(d: DetalleTicket): (r: real)
    ensures d.deve_cantidad.JsNumber? && d.deve_precio.JsNumber? ==> r == d.deve_cantidad.n * d.deve_precio.n
    ensures !d.deve_cantidad.JsNumber? || !d.deve_precio.JsNumber? ==> r == 0.0
  {
    SafeNumber(d.deve_cantidad) * SafeNumber(d.deve_precio)
  }

  /** A left-aligned cell: the text, then spaces up to the width. */
  function CeldaIzquierda(s: string, ancho: nat): (r: string)
    ensures |r| == Max(|s|, ancho) && r[..|s|] == s
  {
    PadEnd(s, ancho)
  }

  /** A right-aligned cell: spaces up to the width, then the text. */
  function CeldaDerecha(s: string, ancho: nat): (r: string)
    ensures |r| == Max(|s|, ancho) && r[|r| - |s|..] == s
  {
    PadStart(s, ancho)
  }

  /** The ticket's Valor column is the other receipts' row value with the line discount added back. */
  lemma ValorTicketSinDescuento(d: DetalleTicket)
    ensures ValorTicket(d) - SafeNumber(d.deve_descuento)
         == ValorFila(DetalleRecibo(SafeNumber(d.deve_cantidad), SafeNumber(d.deve_precio), SafeNumber(d.deve_descuento)))
  {
  }

  /** A ticket row, one padded cell per column. */
  datatype Fila = Fila(codigo: string, descripcion: string, cantidad: string, precio: string, descuento: string, valor: string)

  /**
   * Lays out a row of texts: code and description left-aligned in 6 and 20 columns,
   * quantity right-aligned in 5, and the three money columns right-aligned in 10. No cell
   * is ever cut.
   */
  function AlinearFila(t: Fila): (r: Fila)
    ensures |r.codigo| == Max(|t.codigo|, AnchoCodigo) && r.codigo[..|t.codigo|] == t.codigo
    ensures |r.descripcion| == Max(|t.descripcion|, AnchoDescripcion) && r.descripcion[..|t.descripcion|] == t.descripcion
    ensures |r.cantidad| == Max(|t.cantidad|, AnchoCantidad) && r.cantidad[|r.cantidad| - |t.cantidad|..] == t.cantidad
    ensures |r.precio| == Max(|t.precio|, AnchoMonto) && r.precio[|r.precio| - |t.precio|..] == t.precio
    ensures |r.descuento| == Max(|t.descuento|, AnchoMonto) && r.descuento[|r.descuento| - |t.descuento|..] == t.descuento
    ensures |r.valor| == Max(|t.valor|, AnchoMonto) && r.valor[|r.valor| - |t.valor|..] == t.valor
  {
    Fila(CeldaIzquierda(t.codigo, AnchoCodigo), CeldaIzquierda(t.descripcion, AnchoDescripcion),
         CeldaDerecha(t.cantidad, AnchoCantidad), CeldaDerecha(t.precio, AnchoMonto),
         CeldaDerecha(t.descuento, AnchoMonto), CeldaDerecha(t.valor, AnchoMonto))
  }

  /**
   * The texts of one ticket row before padding: the code, description and quantity through
   * `safeString`, and the price, discount and undiscounted value through `formatCurrency`.
   */
  function TextosTicket(d: DetalleTicket, numeroATexto: real -> string, formatCurrency: real -> string): Fila {
    Fila(SafeString(d.deve_articulo, numeroATexto), SafeString(d.deve_descripcion, numeroATexto),
         SafeString(d.deve_cantidad, numeroATexto), formatCurrency(SafeNumber(d.deve_precio)),
         formatCurrency(SafeNumber(d.deve_descuento)), formatCurrency(ValorTicket(d)))
  }

  /**
   * One ticket row: code and description left-aligned in 6 and 20 columns, quantity
   * right-aligned in 5, and price, discount and the undiscounted value right-aligned in 10.
   */
  function FilaTicket(d: DetalleTicket, numeroATexto: real -> string, formatCurrency: real -> string): (r: Fila)
    ensures var codigo := SafeString(d.deve_articulo, numeroATexto);
            |r.codigo| == Max(|codigo|, AnchoCodigo) && r.codigo[..|codigo|] == codigo
    ensures var descripcion := SafeString(d.deve_descripcion, numeroATexto);
            |r.descripcion| == Max(|descripcion|, AnchoDescripcion) && r.descripcion[..|descripcion|] == descripcion
    ensures var cantidad := SafeString(d.deve_cantidad, numeroATexto);
            |r.cantidad| == Max(|cantidad|, AnchoCantidad) && r.cantidad[|r.cantidad| - |cantidad|..] == cantidad
    ensures var precio := formatCurrency(SafeNumber(d.deve_precio));
            |r.precio| == Max(|precio|, AnchoMonto) && r.precio[|r.precio| - |precio|..] == precio
    ensures var descuento := formatCurrency(SafeNumber(d.deve_descuento));
            |r.descuento| == Max(|descuento|, AnchoMonto) && r.descuento[|r.descuento| - |descuento|..] == descuento
    ensures var valor := formatCurrency(ValorTicket(d));
            |r.valor| == Max(|valor|, AnchoMonto) && r.valor[|r.valor| - |valor|..] == valor
  {
    AlinearFila(TextosTicket(d, numeroATexto, formatCurrency))
  }

  /** The ticket's header row, padded like the rows below it. */
  function EncabezadoTicket(): (r: Fila)
    ensures |r.codigo| == AnchoCodigo && |r.descripcion| == AnchoDescripcion && |r.cantidad| == AnchoCantidad
    ensures |r.precio| == AnchoMonto && |r.descuento| == AnchoMonto && |r.valor| == AnchoMonto
  {
    Fila(CeldaIzquierda("Cód", AnchoCodigo), CeldaIzquierda("Descripción", AnchoDescripcion), CeldaDerecha("Cant", AnchoCantidad),
         CeldaDerecha("Precio U.", AnchoMonto), CeldaDerecha("Desc.", AnchoMonto), CeldaDerecha("Valor", AnchoMonto))
  }

  /** The ticket's "Total s/Desc.": `safeNumber(ve_total + ve_descuento)` on numeric fields. */
  function TotalSinDescuentoTicket(total: real, descuento: real): (r: real)
    ensures r == VentaSinDescuento(total, descuento)
  {
    SafeNumber(JsNumber(total + descuento))
  }
}
