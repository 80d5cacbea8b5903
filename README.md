# Point of sale and quotations — a Dafny model

This project models the calculation and state-handling core of a React point-of-sale and
quotation front end, and proves properties of that model. Money is exact (`real`). The
browser's `localStorage` is a string-keyed store class. Each event handler is one atomic
transition of a screen's state.

The model covers:

- the quotation screen (`Presupuestos`) and the sale screen (`PuntoDeVenta`). They share
  one cart engine: the IVA (value added tax) split by tax code, the currency conversion,
  the three displayed tax columns, the discount, the posted payload with its per-line
  discount share, and the submit guards;
- the early prototype of the sale screen, with its own catalogue, three exchange rates and
  three searches;
- the tax helper `calcularImpuesto(precio, impuestos)` and the article search component;
- the print modals and the last-sale ticket: untyped values made safe, labels, row values,
  footers, and the fixed-width ticket columns;
- the invoice footer's three tax totals;
- the budget and sales consultation lists: their filters, the expand/collapse row toggle,
  the row colour and the detail subtotal;
- the restaurant order board;
- the session: login, logout, and restore on mount;
- the print-style switch.

The modules are:

- `Wrappers`: Option and Result.
- `JsStrings`: the JavaScript string operations the core relies on. Case folding, covering
  ASCII and Latin-1. `includes`, `padEnd`, `padStart`, and integer `toString`.
- `Search`: `filter`, the first-five recommendation, and the client and vendor matching.
- `Storage`: the key-value store.
- `CartEngine`: the shared cart engine.
- `Presupuestos`, `PuntoDeVenta`, `PrototipoPos`, `ImpuestoUtils`, `ArticuloSearch`,
  `Tipos`: the sale and quotation screens and their helpers.
- `Recibos`: the receipt arithmetic and labels shared by the print modals.
- `FacturaPdf`: the invoice footer.
- `Consultas`: what the consultation screens share. `ConsultaPresupuesto` and
  `ResumenVentas` are the two screens.
- `GestionPedidos`: the order board.
- `Auth` and `Switch`: the session and the switch.

Where a description of the system and its code disagree, the model follows the code.

- Removing a cart line at an index outside the cart is a no-op: the code filters by index.
- The tax columns stored in a cart line come from the unconverted guaraní price. Only the
  unit price and the subtotal are converted.

The model keeps several behaviours of the code as they are, and proves them:

- The two screens map tax codes differently. The quotation screen uses 3/2/1 for 5%/10%/exempt
  and the sale screen uses 1/2/0 (`CartEngine.CodigosDifieren`).
- Outside percentage mode, `calcularTotal` deducts the discount converted by the exchange
  rate. The posted header discount and the per-line shares use the unconverted amount
  (`CartEngine.TotalMasDescuento`, `CartEngine.DescuentoFijoEnDolares`).
- The rescale of a fixed discount on a currency change only runs for the type `'valor'`,
  which the discount select never offers. Its options are `porcentaje` and `monto`.
- The sale screen shows "IVA 5%" as the 5% column divided by 20, and "IVA 10%" as the 10%
  column divided by 10.
- Both screens keep their cart under the same key, `cartItems`. A sale line has no batch, and
  the quotation screen reads every line's batch while it renders, so a sale cart left in the
  store makes the quotation screen throw on its first render
  (`CarritoCompartido.VentaLuegoPresupuesto`).
- The quotation print footer subtracts the discounts twice (`Recibos.DescuentoRestadoDosVeces`).
- The prototype stores each line's subtotal in the currency selected when the line was added.
  Its totals re-price every line in the current currency
  (`PrototipoPos.GuardadoNoSeReconvierte`).
- A login whose operator id, name or branch is empty opens a session that a reload does not
  restore (`Auth.LoginVacioNoSeRestaura`).
- The budget consultation's invoice filter has no input, so it never excludes a budget
  (`ConsultaPresupuesto.FacturaNoFiltra`).
- The order board offers the filter "En espera", but no order can have that status
  (`GestionPedidos.EnEsperaVacio`).

## Model

| member | source | states |
|---|---|---|
| CartEngine.Tasa | src/views/presupuestos/Presupuestos.tsx:83-86 | every rate is positive, and the guaraní rate is exactly 1 |
| CartEngine.CodigoMoneda | src/views/presupuestos/Presupuestos.tsx:552 | the posted currency code is 1 exactly for guaraníes and 0 otherwise |
| CartEngine.CalcularImpuesto | src/views/presupuestos/Presupuestos.tsx:288-301 | the first matching code puts the whole price in its column; an unknown code gives three zeros |
| CartEngine.CalcularImpuestoSuma | src/views/presupuestos/Presupuestos.tsx:288-301 | for a known code the three columns add up to the price, otherwise to zero |
| CartEngine.CalcularImpuestoLineal | src/views/presupuestos/Presupuestos.tsx:288-301 | splitting a price scaled by k gives each column scaled by k |
| CartEngine.CodigosDifieren | src/views/puntodeventa/punto_de_venta.tsx:268-281 | code 1 is exempt on the quotation screen but 5% on the sale screen; code 3 is unknown on the sale screen and 0 on the quotation screen |
| CartEngine.NuevoItem | src/views/presupuestos/Presupuestos.tsx:335-350 | the new line keeps the article's identity and code, converts its price by the rate, its subtotal is unit price × quantity, and its columns split the unconverted price |
| CartEngine.Rederivar | src/views/presupuestos/Presupuestos.tsx:517-525 | one line of the currency update is derived for the new currency, keeps identity, original price, code, quantity and batch, and an already derived line is unchanged |
| CartEngine.RederivarSoloDeOrigen | src/views/presupuestos/Presupuestos.tsx:517-525 | the update depends only on a line's identity, original price, code, quantity and batch |
| CartEngine.RederivarTodos | src/views/presupuestos/Presupuestos.tsx:516-526 | the updated cart has the same length and order, every line is derived, and a derived cart is left as it is |
| CartEngine.RederivarTodosIdempotente | src/views/presupuestos/Presupuestos.tsx:516-526 | applying the currency update twice equals applying it once |
| CartEngine.QuitarIndice | src/views/presupuestos/Presupuestos.tsx:367-371 | removing an index in range drops exactly that element; an index out of range leaves the list unchanged |
| CartEngine.ColumnasSuman | src/views/presupuestos/Presupuestos.tsx:303-331 | the three displayed columns add up to Σ original price × rate × quantity over the lines with a known code |
| CartEngine.ColumnasDeUnaLinea | src/views/presupuestos/Presupuestos.tsx:303-331 | one line's three displayed columns add up to its converted value when its code is known, else zero |
| CartEngine.ValorConocidoEsSubtotal | src/views/puntodeventa/punto_de_venta.tsx:313-328 | on a derived cart whose codes are all known, that sum is the cart subtotal |
| CartEngine.ColumnaMostradaReconvierte | src/views/presupuestos/Presupuestos.tsx:303-311 | on a derived cart each displayed column is the stored (unconverted) column times the rate |
| CartEngine.CalcularTotalColumna | src/views/presupuestos/Presupuestos.tsx:303-311 | the accumulating loop returns the displayed column total |
| CartEngine.CalcularTotalImpuestos | src/views/puntodeventa/punto_de_venta.tsx:313-328 | the three-accumulator loop returns Σ converted value over the lines with a known code |
| CartEngine.IvaMostrado5 | src/views/puntodeventa/punto_de_venta.tsx:1204 | dividing by 20 is taking 5% of the column |
| CartEngine.IvaMostrado10 | src/views/puntodeventa/punto_de_venta.tsx:1206 | dividing by 10 is taking 10% of the column |
| CartEngine.IvaMostradoSobreNeto | src/views/puntodeventa/punto_de_venta.tsx:1204-1206 | for positive columns the shown figures exceed the tax contained in a tax-inclusive amount (5/105, 10/110) |
| CartEngine.CalcularTotal | src/views/presupuestos/Presupuestos.tsx:375-383 | percentage mode gives subtotal × (100 − d)/100; any other mode deducts d × rate, which is d itself in guaraníes |
| CartEngine.DescuentoCabecera | src/views/presupuestos/Presupuestos.tsx:554-556 | the header discount is subtotal × d/100 in percentage mode, and d unconverted otherwise |
| CartEngine.TotalMasDescuento | src/views/presupuestos/Presupuestos.tsx:554-564 | posted total + posted discount equals the subtotal if and only if the mode is percentage, the currency is guaraní, or d is 0 |
| CartEngine.ReescalarDescuento | src/views/presupuestos/Presupuestos.tsx:527-529 | the rescaled amount times the other currency's rate equals the old amount times the new rate |
| CartEngine.ReescalarIdaVuelta | src/views/puntodeventa/punto_de_venta.tsx:523-525 | rescaling to a currency and back restores the amount |
| CartEngine.DescuentoLinea | src/views/presupuestos/Presupuestos.tsx:570-577 | a line's discount share is its amount × d/100 in percentage mode, and (its amount / cart subtotal) × d otherwise |
| CartEngine.DetalleDe | src/views/presupuestos/Presupuestos.tsx:570-597 | the discount is the line's share of the header discount, and each posted tax column is the line's column × quantity minus that share, floored at zero; identity, quantity, price and batch are the line's |
| CartEngine.DetallesCon | src/views/presupuestos/Presupuestos.tsx:570-598 | one posted detail per cart line, in cart order |
| CartEngine.Detalles | src/views/puntodeventa/punto_de_venta.tsx:551-576 | one detail per cart line, in cart order: each is that line's detail against the cart subtotal, carries the line's batch, and has non-negative columns |
| CartEngine.SumaLineasEsSubtotal | src/views/presupuestos/Presupuestos.tsx:570-571 | when each subtotal is price × quantity, Σ price × quantity is the cart subtotal |
| CartEngine.SumaDescuentosDetalles | src/views/presupuestos/Presupuestos.tsx:570-598 | the posted details carry exactly the lines' discount shares |
| CartEngine.SumaDescuentosCon | src/views/presupuestos/Presupuestos.tsx:570-577 | the lines' shares add up to the share of their combined amount |
| CartEngine.SumaDescuentosLineaCabecera | src/views/presupuestos/Presupuestos.tsx:554-577 | the shares taken against the cart subtotal add up to the header discount |
| CartEngine.DescuentosSumanCabecera | src/views/puntodeventa/punto_de_venta.tsx:545-561 | the per-line discounts add up to the posted header discount: always in percentage mode, and to d in fixed mode when the subtotal is nonzero |
| CartEngine.DerivadosCoherentes | src/views/presupuestos/Presupuestos.tsx:335-350 | every line of a derived cart has subtotal = price × quantity |
| CartEngine.DescuentoFijoEnDolares | src/views/puntodeventa/punto_de_venta.tsx:543-561 | in dollars with a nonzero fixed discount, the posted shares differ from what the total deducts |
| CartEngine.ArmarEnvio | src/views/presupuestos/Presupuestos.tsx:548-599 | the payload carries the client code, the currency code, the operator (1 when the field is empty, else its parsed value) as both operator and vendor, the parsed branch and deposit, the header discount, the `calcularTotal` total and the details of the cart; in percentage mode total + discount = subtotal, otherwise the discount is the entered amount and the total deducts it at the exchange rate |
| CartEngine.PrimeraFalta | src/views/presupuestos/Presupuestos.tsx:604-658 | the first missing datum in the order client, branch, deposit, vendor, lines; none exactly when all are present |
| CartEngine.GetCreditColor | src/views/presupuestos/Presupuestos.tsx:714-718 | red if and only if negative, gray if and only if zero, green if and only if positive |
| Presupuestos.Screen.constructor | src/views/presupuestos/Presupuestos.tsx:118 | the cart is read back from the store (empty when absent); when every line has a batch it is re-derived for guaraníes and written back, otherwise the first render throws (at :593), the screen is down and the store is untouched; other fields start at their initial values |
| Presupuestos.Screen.SeleccionarArticulo | src/views/presupuestos/Presupuestos.tsx:1018-1022 | the article is selected, its name fills the search field and the recommendations close |
| Presupuestos.Screen.HandleBusqueda | src/views/presupuestos/Presupuestos.tsx:385-428 | the search text is stored; a non-empty query shows the fetched articles, and an empty query or a failed fetch clears the recommendations; cart and selection are untouched |
| Presupuestos.Screen.SelectFirstArticulo | src/views/presupuestos/Presupuestos.tsx:773-780 | Enter acts exactly when there are recommendations: it selects the first one, puts its name in the search field and closes the list; otherwise nothing changes |
| Presupuestos.Screen.SelectFirstCliente | src/views/presupuestos/Presupuestos.tsx:764-771 | Enter acts exactly when there are client recommendations: it selects the first client, puts its business name in the search field and closes the list; otherwise nothing changes |
| Presupuestos.Screen.SelectFirstVendedor | src/views/presupuestos/Presupuestos.tsx:754-762 | Enter acts exactly when there are vendor recommendations: the first vendor's name becomes the vendor, its code becomes the operator and the search text, and the list closes; otherwise nothing changes |
| Presupuestos.Screen.SetCantidad | src/views/presupuestos/Presupuestos.tsx:1048 | the quantity is set; the cart is unchanged |
| Presupuestos.Screen.AgregarItem | src/views/presupuestos/Presupuestos.tsx:333-365 | with a selection, exactly one derived line with its batch is appended and stored, and the quantity, search and selection reset; without one, nothing changes |
| Presupuestos.Screen.EliminarItem | src/views/presupuestos/Presupuestos.tsx:367-371 | the line at the index goes and the rest keep their order; an index out of range changes nothing; the store is updated |
| Presupuestos.Screen.CambiarMoneda | src/views/presupuestos/Presupuestos.tsx:516-530 | the cart is re-derived for the new currency, keeping length, identities and quantities; the same currency changes nothing; the discount is untouched for the select's types |
| Presupuestos.Screen.SetDescuentoTipo | src/views/presupuestos/Presupuestos.tsx:1168-1171 | the new type, with the amount reset to zero |
| Presupuestos.Screen.SetDescuentoValor | src/views/presupuestos/Presupuestos.tsx:1179 | the amount is set; the type and the cart are unchanged |
| Presupuestos.Screen.HandleBusquedaCliente | src/views/presupuestos/Presupuestos.tsx:461-474 | the recommendations are the first five matching clients in list order, and none for an empty query |
| Presupuestos.Screen.SeleccionarCliente | src/views/presupuestos/Presupuestos.tsx:974-978 | the client is selected, its name fills the search and the recommendations close |
| Presupuestos.Screen.HandleBusquedaVendedor | src/views/presupuestos/Presupuestos.tsx:476-500 | the recommendations are the first five matching vendors; the vendor becomes the first of them, or is cleared when there is none |
| Presupuestos.Screen.SeleccionarVendedor | src/views/presupuestos/Presupuestos.tsx:922-927 | the vendor's name and code are taken and the recommendations close |
| Presupuestos.Screen.SetSucursal | src/views/presupuestos/Presupuestos.tsx:817 | the branch is set |
| Presupuestos.Screen.Finalizar | src/views/presupuestos/Presupuestos.tsx:604-703 | the first missing datum stops it with nothing changed; otherwise the payload built from the screen state is posted, every posted detail carries a batch, and only a nonzero answer clears cart, client and discount and opens the confirmation |
| Presupuestos.Screen.Cancelar | src/views/presupuestos/Presupuestos.tsx:705-711 | empties and stores the cart, and clears the client, its search and the discount amount |
| Presupuestos.Screen.Total | src/views/presupuestos/Presupuestos.tsx:373-383 | the shown total is `calcularTotal` of the cart subtotal, the discount and the currency: with no discount it is the subtotal, and an empty cart in percentage mode totals zero |
| PuntoDeVenta.Screen.constructor | src/views/puntodeventa/punto_de_venta.tsx:104 | the cart is read back from the shared key, re-derived for guaraníes and written back |
| PuntoDeVenta.Screen.AgregarItem | src/views/puntodeventa/punto_de_venta.tsx:331-361 | with a selection, exactly one derived line is appended and stored; without one, nothing changes |
| PuntoDeVenta.Screen.EliminarItem | src/views/puntodeventa/punto_de_venta.tsx:363-367 | the line at the index goes and the rest keep their order; an index out of range changes nothing |
| PuntoDeVenta.Screen.CambiarMoneda | src/views/puntodeventa/punto_de_venta.tsx:512-526 | the cart is re-derived for the new currency; re-selecting the same currency changes nothing |
| PuntoDeVenta.Screen.SeleccionarArticulo | src/views/puntodeventa/punto_de_venta.tsx:1014-1018 | the article is selected, its name fills the search field and the recommendations close |
| PuntoDeVenta.Screen.HandleBusqueda | src/views/puntodeventa/punto_de_venta.tsx:381-424 | the search text is stored; a non-empty query shows the fetched articles, and an empty query or a failed fetch clears the recommendations; cart and selection are untouched |
| PuntoDeVenta.Screen.SelectFirstArticulo | src/views/puntodeventa/punto_de_venta.tsx:809-816 | Enter acts exactly when there are recommendations: it selects the first one, puts its name in the search field and closes the list; otherwise nothing changes |
| PuntoDeVenta.Screen.SelectFirstCliente | src/views/puntodeventa/punto_de_venta.tsx:800-807 | Enter acts exactly when there are client recommendations: it selects the first client, puts its business name in the search field and closes the list; otherwise nothing changes |
| PuntoDeVenta.Screen.SelectFirstVendedor | src/views/puntodeventa/punto_de_venta.tsx:790-798 | Enter acts exactly when there are vendor recommendations: the first vendor's name becomes the vendor, its code becomes the operator and the search text, and the list closes; otherwise nothing changes |
| PuntoDeVenta.Screen.SetCantidad | src/views/puntodeventa/punto_de_venta.tsx:1044 | the quantity is set |
| PuntoDeVenta.Screen.SetDescuentoTipo | src/views/puntodeventa/punto_de_venta.tsx:1174-1177 | the new type, with the amount reset to zero |
| PuntoDeVenta.Screen.SetDescuentoValor | src/views/puntodeventa/punto_de_venta.tsx:1185 | the amount is set |
| PuntoDeVenta.Screen.HandleBusquedaCliente | src/views/puntodeventa/punto_de_venta.tsx:457-470 | the first five matching clients, none for an empty query |
| PuntoDeVenta.Screen.SeleccionarCliente | src/views/puntodeventa/punto_de_venta.tsx:970-974 | the client is selected and the recommendations close |
| PuntoDeVenta.Screen.HandleBusquedaVendedor | src/views/puntodeventa/punto_de_venta.tsx:472-496 | the first five matching vendors; the vendor becomes the first of them or is cleared |
| PuntoDeVenta.Screen.SeleccionarVendedor | src/views/puntodeventa/punto_de_venta.tsx:918-923 | the vendor's name and code are taken |
| PuntoDeVenta.Screen.SetSucursal | src/views/puntodeventa/punto_de_venta.tsx:843 | the branch is set |
| PuntoDeVenta.SinLote | src/views/puntodeventa/punto_de_venta.tsx:565-575 | each posted sale detail is the common detail with its batch dropped and every other field kept |
| PuntoDeVenta.Screen.Finalizar | src/views/puntodeventa/punto_de_venta.tsx:628-733 | the guards in order; the posted sale is the payload built from the screen state, with no batch on its details, plus the condition, the invoice number and the client's credit limit as balance; only a nonzero answer resets the sale and opens the receipt |
| PuntoDeVenta.Screen.Cancelar | src/views/puntodeventa/punto_de_venta.tsx:735-744 | empties the cart and resets the discount amount, condition and fiscal-note kind to 0 and the invoice number to '' |
| PuntoDeVenta.Screen.CreditoDeshabilitado | src/views/puntodeventa/punto_de_venta.tsx:1132 | credit is enabled exactly when a client with a positive credit line is selected |
| PuntoDeVenta.Screen.SetCondicionVenta | src/views/puntodeventa/punto_de_venta.tsx:1117-1132 | credit can only be chosen for a client with a positive credit line |
| PuntoDeVenta.Screen.SetNotaFiscal | src/views/puntodeventa/punto_de_venta.tsx:1149-1162 | the fiscal-note kind is set |
| PuntoDeVenta.Screen.SetNumeroFactura | src/views/puntodeventa/punto_de_venta.tsx:1197 | the invoice number is set |
| PuntoDeVenta.Screen.TotalesImpuestos | src/views/puntodeventa/punto_de_venta.tsx:1204-1208 | the shown IVA figures are 5% and 10% of their columns, and the tax total is the value of the known-code lines, which is the subtotal when all codes are known |
| PuntoDeVenta.Screen.Total | src/views/puntodeventa/punto_de_venta.tsx:369-379 | the shown total is `calcularTotal` of the cart subtotal, the discount and the currency; with no discount it is the subtotal |
| CarritoCompartido.VentaLuegoPresupuesto | src/views/presupuestos/Presupuestos.tsx:592-593 | a line added on the sale screen is stored without a batch under the shared key, and the quotation screen then opened over the same store is down on its first render, holding that cart |
| Storage.Store.GetItem | src/views/presupuestos/Presupuestos.tsx:94-97 | a value exactly for a stored key, and it is the stored value |
| Storage.Store.SetItem | src/views/presupuestos/Presupuestos.tsx:90-92 | only the written key changes |
| Storage.Store.RemoveItem | src/services/AuthContext.tsx:62-65 | only the removed key disappears |
| Search.Filter | src/views/presupuestos/Presupuestos.tsx:465-469 | the result keeps exactly the matching elements, in their order, as a subsequence, each as many times as it occurs in the input |
| Search.FilterIdempotent | src/views/ventas/ResumenVentas.tsx:185-189 | filtering twice by the same predicate equals filtering once |
| Search.Take | src/views/presupuestos/Presupuestos.tsx:469 | `slice(0, n)` is the prefix of length min(n, length) |
| Search.Recomendar | src/views/presupuestos/Presupuestos.tsx:463-472 | none for an empty query; otherwise at most five, all matching, and a prefix of the filtered list, the whole of it when at most five match |
| Search.RecomendarIsSubsequence | src/views/presupuestos/Presupuestos.tsx:465-469 | the recommendations keep the list's order |
| Search.ClienteEncontradoPorRuc | src/views/presupuestos/Presupuestos.tsx:465-469 | typing a client's whole RUC recommends it, provided at most five clients match |
| JsStrings.Lower | src/views/presupuestos/Presupuestos.tsx:466 | lowercasing keeps the length and maps each character |
| JsStrings.LowerIdempotent | src/views/presupuestos/Presupuestos.tsx:466 | lowercasing twice equals lowercasing once |
| JsStrings.IncludesIffOccurs | src/views/presupuestos/Presupuestos.tsx:466-468 | `includes` holds exactly when the text occurs at some position |
| JsStrings.PadEnd | src/views/ventas/ultimaVenta.tsx:135-136 | the result's length is the larger of the text's length and the width, the text is a prefix and the rest is spaces |
| JsStrings.PadStart | src/views/ventas/ultimaVenta.tsx:137-140 | the result's length is the larger of the text's length and the width, the text is a suffix and the rest is spaces |
| JsStrings.IntToString | src/views/presupuestos/ConsultaPresupuesto.tsx:193 | decimal digits with no leading zero, and a minus sign for negatives |
| JsStrings.ParseOfToString | src/views/presupuestos/ConsultaPresupuesto.tsx:193 | reading back the digits of a number gives the number |
| JsStrings.ToStringInjective | src/views/presupuestos/ConsultaPresupuesto.tsx:193 | different numbers have different decimal texts |
| PrototipoPos.TasaCambio | src/views/punto_de_venta.tsx:81-85 | every rate is at least 1, and the dollar rate is exactly 1 |
| PrototipoPos.NuevoItem | src/views/punto_de_venta.tsx:111-117 | the line keeps the article's fields and quantity; in dollars its subtotal is price × quantity |
| PrototipoPos.Total | src/views/punto_de_venta.tsx:132-142 | percentage mode gives the re-priced subtotal × (100 − d)/100; otherwise total + d is the re-priced subtotal, d unconverted |
| PrototipoPos.SubtotalEscala | src/views/punto_de_venta.tsx:490 | the re-priced subtotal in a currency is the dollar subtotal times that rate |
| PrototipoPos.GuardadoCoincide | src/views/punto_de_venta.tsx:111-142 | while every line was added in the shown currency, the stored subtotals add up to the shown subtotal |
| PrototipoPos.AgregarSuma | src/views/punto_de_venta.tsx:111-142 | adding a line raises the shown subtotal by exactly its stored subtotal |
| PrototipoPos.GuardadoNoSeReconvierte | src/views/punto_de_venta.tsx:111-142 | a one-dollar line added in dollars stores 1 while the guaraní subtotal shows 7300 |
| PrototipoPos.DescuentoFijoSinConvertir | src/views/punto_de_venta.tsx:132-140 | in guaraníes a fixed discount is subtracted as typed from the 7300-times dollar subtotal |
| PrototipoPos.Screen.constructor | src/views/punto_de_venta.tsx:88-108 | the catalogues and the initial values of the screen |
| PrototipoPos.Screen.AgregarItem | src/views/punto_de_venta.tsx:111-130 | with a selection one line is appended and the quantity resets to 1; without one nothing changes |
| PrototipoPos.Screen.SetMoneda | src/views/punto_de_venta.tsx:233-237 | the currency changes and the stored lines are not re-derived |
| PrototipoPos.Screen.SetCantidad | src/views/punto_de_venta.tsx:371 | the quantity is set |
| PrototipoPos.Screen.CalcularTotal | src/views/punto_de_venta.tsx:132-142 | the loop computes the total of the current lines, type, amount and currency |
| PrototipoPos.Screen.HandleBusqueda | src/views/punto_de_venta.tsx:144-157 | the first five articles whose name or code contains the query ignoring case, none for an empty query |
| PrototipoPos.Screen.SeleccionarArticulo | src/views/punto_de_venta.tsx:355-359 | the article is selected and the recommendations close |
| PrototipoPos.Screen.HandleBusquedaCliente | src/views/punto_de_venta.tsx:159-171 | the first five clients matching by name ignoring case or by RUC |
| PrototipoPos.Screen.SeleccionarCliente | src/views/punto_de_venta.tsx:316-320 | the client is selected and the recommendations close |
| PrototipoPos.Screen.HandleBusquedaVendedor | src/views/punto_de_venta.tsx:173-188 | the first five matching vendors; the vendor becomes the first match, and stays as it was when nothing matches |
| PrototipoPos.Screen.SeleccionarVendedor | src/views/punto_de_venta.tsx:271-275 | the vendor is taken and the recommendations close |
| PrototipoPos.Screen.CreditoDeshabilitado | src/views/punto_de_venta.tsx:432 | credit is enabled exactly when a client with a nonzero credit line is selected |
| PrototipoPos.Screen.SetCondicionVenta | src/views/punto_de_venta.tsx:417-432 | credit can only be chosen while enabled |
| PrototipoPos.Screen.SetNotaFiscal | src/views/punto_de_venta.tsx:449-462 | the fiscal-note kind is set |
| PrototipoPos.Screen.SetDescuentoTipo | src/views/punto_de_venta.tsx:472-476 | the new type, with the amount reset to zero |
| PrototipoPos.Screen.SetDescuentoValor | src/views/punto_de_venta.tsx:483-484 | the amount is set |
| PrototipoPos.CreditoDeClienteSinLinea | src/views/punto_de_venta.tsx:432 | for the catalogue's client with no credit line, credit is disabled |
| ImpuestoUtils.TasaCombinada | src/views/puntodeventa/utils.ts:15-20 | the rate is 0 exactly when neither label is present, 0.15 exactly when both are, and always between 0 and 0.15 |
| ImpuestoUtils.CalcularImpuesto | src/views/puntodeventa/utils.ts:15-20 | the two conditional additions give price × combined rate |
| ImpuestoUtils.SoloCuentanLasEtiquetas | src/views/puntodeventa/utils.ts:17-18 | lists with the same members give the same rate, whatever the duplicates |
| ImpuestoUtils.PermutarNoCambia | src/views/puntodeventa/utils.ts:17-18 | reordering the list does not change the rate |
| ImpuestoUtils.ImpuestoLineal | src/views/puntodeventa/utils.ts:15-20 | the tax is linear in the price and non-negative for a non-negative price |
| ArticuloSearch.NuevoItem | src/views/puntodeventa/components/ArticuloSearch.tsx:36-51 | the item's unit and original price are the price unconverted, its tax is price × quantity × rate, and its subtotal is unit price × quantity + tax |
| ArticuloSearch.SubtotalConDiez | src/views/puntodeventa/components/ArticuloSearch.tsx:36-51 | with the 10% label the subtotal is 1.10 × price × quantity |
| ArticuloSearch.Component.HandleBusqueda | src/views/puntodeventa/components/ArticuloSearch.tsx:26-29 | typing sets the query and clears the selection |
| ArticuloSearch.Component.HandleSeleccion | src/views/puntodeventa/components/ArticuloSearch.tsx:31-34 | selecting sets the selection and puts its name in the query |
| ArticuloSearch.Component.SetCantidad | src/views/puntodeventa/components/ArticuloSearch.tsx:98 | the quantity is set |
| ArticuloSearch.Component.HandleAgregar | src/views/puntodeventa/components/ArticuloSearch.tsx:36-56 | with a selection exactly one item is handed over and query, quantity and selection reset; without one nothing happens |
| ArticuloSearch.Component.Dropdown | src/views/puntodeventa/components/ArticuloSearch.tsx:66-80 | empty for an empty query or while selected; otherwise at most five matching articles in catalogue order |
| ArticuloSearch.Component.AgregarDeshabilitado | src/views/puntodeventa/components/ArticuloSearch.tsx:102 | the add button is disabled exactly when nothing is selected |
| Recibos.SafeString | src/views/presupuestos/imprimirPresupuesto.tsx:254-256 | strings are unchanged, falsy values give '', other values their `String` text |
| Recibos.SafeNumber | src/views/ventas/ultimaVenta.tsx:89-91 | numbers are unchanged and every other value is 0 |
| Recibos.MonedaLabel | src/views/presupuestos/imprimirPresupuesto.tsx:312 | 'GUARANI' exactly for code 1, 'USD' otherwise |
| Recibos.EtiquetaMonedaPosteada | src/views/ventas/imprimirVenta.tsx:291 | a sale posted in guaraníes is labelled 'GUARANI', and one in dollars is not |
| Recibos.CondicionLabel | src/views/ventas/imprimirVenta.tsx:283 | 'Credito' exactly for 1, 'Contado' otherwise |
| Recibos.DepositoLabel | src/views/ventas/ultimaVenta.tsx:119 | 'Casa Central' exactly when the deposit is the number 1, '' otherwise |
| Recibos.ValorFila | src/views/presupuestos/imprimirPresupuesto.tsx:349 | row value + discount = quantity × price |
| Recibos.TotalEsBrutoMenosDescuentos | src/views/presupuestos/imprimirPresupuesto.tsx:276-283 | Σ row values = Σ quantity × price − Σ discounts |
| Recibos.PiePresupuesto | src/views/presupuestos/imprimirPresupuestoEstilizado.tsx:266-274 | item count is the number of lines, the discount is Σ discounts, and the final total is Σ quantity × price − 2 × Σ discounts |
| Recibos.DescuentoRestadoDosVeces | src/views/presupuestos/imprimirPresupuesto.tsx:286 | with nonzero discounts the final total differs from gross − discounts; adding the discounts back once gives the shown subtotal |
| Recibos.VentaSinDescuento | src/views/ventas/imprimirVenta.tsx:237-239 | the amount before discount, less the discount, is the total |
| Recibos.TotalSinDescuento | src/views/ventas/imprimirVenta.tsx:241-244 | a missing total or discount counts as 0 |
| Recibos.PieVenta | src/views/ventas/imprimirVenta.tsx:333-349 | the sale footer's "Total Items" is the number of printed detail rows, its discount and total are the posted ones, and "Total s/Desc." less the discount is the total |
| Recibos.SinDescuentoRecuperaSubtotal | src/views/ventas/imprimirVenta.tsx:237-244 | for a posted sale, total + discount is the cart subtotal exactly in percentage mode, in guaraníes or with no discount |
| Recibos.ValorTicket | src/views/ventas/ultimaVenta.tsx:150 | the ticket's value column is quantity × price when both are numbers, else 0 |
| Recibos.ValorTicketSinDescuento | src/views/ventas/ultimaVenta.tsx:148-150 | the value column does not subtract the line's discount |
| Recibos.CeldaIzquierda | src/views/ventas/ultimaVenta.tsx:145-146 | a left-aligned cell is as wide as the larger of text and width, with the text as prefix |
| Recibos.CeldaDerecha | src/views/ventas/ultimaVenta.tsx:147-150 | a right-aligned cell is as wide as the larger of text and width, with the text as suffix |
| Recibos.AlinearFila | src/views/ventas/ultimaVenta.tsx:145-150 | the six cells are padded to 6, 20, 5, 10, 10 and 10 columns, keeping their text as prefix or suffix |
| Recibos.FilaTicket | src/views/ventas/ultimaVenta.tsx:144-151 | each ticket row column holds its safe text or formatted value, padded to its width: code and description as a prefix, quantity, price, discount and value as a suffix |
| Recibos.EncabezadoTicket | src/views/ventas/ultimaVenta.tsx:135-140 | the header cells are exactly 6, 20, 5, 10, 10 and 10 wide |
| Recibos.TotalSinDescuentoTicket | src/views/ventas/ultimaVenta.tsx:156 | the ticket's amount before discount is total + discount, as on the sale print |
| FacturaPdf.OCero | src/views/puntodeventa/facturaPdf.tsx:167-169 | a missing value counts as 0 |
| FacturaPdf.CalculateTotals | src/views/puntodeventa/facturaPdf.tsx:161-173 | the loop returns each column's sum over the items, each accumulator taking only its own field, and zeros for no items |
| FacturaPdf.SumaConcat | src/views/puntodeventa/facturaPdf.tsx:161-173 | a column total over two lists put together is the sum of their totals |
| FacturaPdf.SumaPermutacion | src/views/puntodeventa/facturaPdf.tsx:161-173 | the totals do not depend on the order of the items |
| FacturaPdf.FormatCurrency | src/views/puntodeventa/facturaPdf.tsx:156-159 | 'N/A' exactly for a missing amount, otherwise 'Gs. ' followed by the formatted amount |
| Consultas.ContieneVacio | src/views/ventas/ResumenVentas.tsx:185-189 | an empty filter excludes nothing |
| Consultas.Seleccion.HandleVentaClick | src/views/presupuestos/ConsultaPresupuesto.tsx:196-205 | clicking the open row closes it, clears the details and records its code; any other row opens, and its fetched details and code are shown, or the old ones stay when the fetch fails |
| Consultas.DosClicsCierran | src/views/ventas/ResumenVentas.tsx:191-200 | clicking the same row twice closes it with no details |
| ConsultaPresupuesto.FilteredPresupuesto | src/views/presupuestos/ConsultaPresupuesto.tsx:189-194 | a budget is shown if and only if it is in the list and passes all four filters; the result keeps the list's order |
| ConsultaPresupuesto.SinFiltros | src/views/presupuestos/ConsultaPresupuesto.tsx:189-194 | with all filters empty every budget is shown |
| ConsultaPresupuesto.FacturaNoFiltra | src/views/presupuestos/ConsultaPresupuesto.tsx:92 | the invoice filter, which has no input, never excludes a budget |
| ConsultaPresupuesto.EncontradoPorCodigo | src/views/presupuestos/ConsultaPresupuesto.tsx:193 | typing a budget's whole code shows that budget |
| ConsultaPresupuesto.FiltrarDosVeces | src/views/presupuestos/ConsultaPresupuesto.tsx:189-194 | filtering the shown list again changes nothing |
| ConsultaPresupuesto.ColorFila | src/views/presupuestos/ConsultaPresupuesto.tsx:305 | the row is highlighted exactly when the budget is 'Confirmado', white otherwise |
| ConsultaPresupuesto.SubtotalDetalle | src/views/presupuestos/ConsultaPresupuesto.tsx:370 | the detail subtotal is the receipt row value: subtotal + discount = price × quantity |
| ConsultaPresupuesto.HandleSelectPresupuesto | src/views/presupuestos/ConsultaPresupuesto.tsx:215-222 | the selection callback gets the budget and its details first, then the close callback runs, each only when provided |
| ResumenVentas.FilteredVentas | src/views/ventas/ResumenVentas.tsx:185-189 | a sale is shown if and only if it is in the list and vendor, client and invoice contain their filters ignoring case; order is kept |
| ResumenVentas.SinFiltros | src/views/ventas/ResumenVentas.tsx:185-189 | with all filters empty every sale is shown |
| ResumenVentas.SoloVendedor | src/views/ventas/ResumenVentas.tsx:185-189 | with only the vendor filter set, a sale is shown exactly when its vendor contains it |
| ResumenVentas.SubtotalDetalle | src/views/ventas/ResumenVentas.tsx:342 | the detail subtotal is the receipt row value |
| GestionPedidos.EstadoTexto | src/views/puntodeventa/gestiondepedidos.tsx:25 | a status is stored as 'recibido', 'listo' or 'entregado' |
| GestionPedidos.FilteredOrders | src/views/puntodeventa/gestiondepedidos.tsx:53-55 | an order is shown if and only if it is in the list and the filter is 'todos' or its status; order is kept, and 'todos' shows every order |
| GestionPedidos.FiltroPorEstado | src/views/puntodeventa/gestiondepedidos.tsx:53-55 | a status filter shows an order exactly when it has that status |
| GestionPedidos.EnEsperaVacio | src/views/puntodeventa/gestiondepedidos.tsx:91-95 | the 'enespera' option always shows nothing |
| GestionPedidos.GetStatusColor | src/views/puntodeventa/gestiondepedidos.tsx:57-68 | red, yellow and green, each exactly for its status; the gray fallback is never returned |
| GestionPedidos.BotonDeshabilitado | src/views/puntodeventa/gestiondepedidos.tsx:127-147 | a status button is disabled exactly on the order's current status |
| GestionPedidos.ColorBoton | src/views/puntodeventa/gestiondepedidos.tsx:127-147 | a button is coloured exactly when it is the current status, in that status's colour |
| GestionPedidos.CambiarEstado | src/views/puntodeventa/gestiondepedidos.tsx:70-76 | same length and order; the orders with the id get the new status with their other fields unchanged; every other order is unchanged |
| GestionPedidos.CambiarEstadoIdempotente | src/views/puntodeventa/gestiondepedidos.tsx:70-76 | setting the same status twice equals setting it once |
| GestionPedidos.CambiadoApareceEnSuFiltro | src/views/puntodeventa/gestiondepedidos.tsx:53-76 | a changed order appears under its new status's filter and under no other status |
| GestionPedidos.Board.constructor | src/views/puntodeventa/gestiondepedidos.tsx:28-50 | no orders and filter 'todos' |
| GestionPedidos.Board.FetchData | src/views/puntodeventa/gestiondepedidos.tsx:31-43 | the sample orders are loaded |
| GestionPedidos.Board.SetFilter | src/views/puntodeventa/gestiondepedidos.tsx:86-96 | the filter becomes one of the select's options |
| GestionPedidos.Board.ChangeOrderStatus | src/views/puntodeventa/gestiondepedidos.tsx:70-76 | the orders become the status change of the old orders; the filter is unchanged |
| GestionPedidos.Board.Visibles | src/views/puntodeventa/gestiondepedidos.tsx:100 | the cards are the filtered orders, none under 'enespera' |
| Auth.AuthDe | src/services/AuthContext.tsx:43-49 | the token is 'Bearer ' + the token received (never empty), and id, name and branch come from the operator record |
| Auth.Escribir | src/services/AuthContext.tsx:51-54 | the four keys hold the session's values and every other key is as before |
| Auth.Borrar | src/services/AuthContext.tsx:62-65 | the four keys are gone and every other key is as before |
| Auth.Restaurado | src/services/AuthContext.tsx:31-38 | a session exactly when all four keys hold non-empty strings, made of those strings |
| Auth.RestaurarTrasLogin | src/services/AuthContext.tsx:31-56 | after a login with non-empty operator fields, restoring gives back the session login opened |
| Auth.LoginVacioNoSeRestaura | src/services/AuthContext.tsx:37-49 | after a login with an empty operator field, restoring gives no session |
| Auth.LogoutConservaOtras | src/services/AuthContext.tsx:61-68 | after logout nothing is restored, and the keys the session does not own are untouched |
| Auth.AuthProvider.constructor | src/services/AuthContext.tsx:29 | no session and no header |
| Auth.AuthProvider.Restore | src/services/AuthContext.tsx:31-41 | when the stored keys form a session it is opened and its token becomes the header; otherwise nothing changes |
| Auth.AuthProvider.Login | src/services/AuthContext.tsx:43-59 | the store gains the four keys, the session is opened and its token becomes the header |
| Auth.AuthProvider.Logout | src/services/AuthContext.tsx:61-68 | the four keys are removed, the session is closed and the header deleted |
| Auth.LoginYRecarga | src/services/AuthContext.tsx:28-59 | a provider mounted after a login, over the same store, restores that session |
| Auth.UseAuth | src/services/AuthContext.tsx:77-83 | the context inside a provider, and the error otherwise |
| Switch.SwitchProvider.constructor | src/services/SwitchContext.tsx:11 | the switch starts off |
| Switch.SwitchProvider.ToggleSwitch | src/services/SwitchContext.tsx:13 | the switch is negated |
| Switch.DosToggles | src/services/SwitchContext.tsx:13 | two toggles restore the value |
| Switch.ToggleVeces | src/services/SwitchContext.tsx:11-13 | after n toggles from the start the switch is on exactly when n is odd |
| Switch.UseSwitch | src/services/SwitchContext.tsx:22-28 | the context inside a provider, and the error otherwise |

## Left out

- HTTP: every axios call, the Supabase queries of the invoice page, and the audit call
  (`Auditar`) are not modelled. The answer to a post is a parameter of `Finalizar`, and the
  detail fetch result is a parameter of `HandleVentaClick`. The article, client, vendor,
  branch and deposit lists are parameters of the screen constructors.
- Asynchrony and React scheduling: the 300 ms debounce of the article search, the mount
  effects, and any interleaving of a pending fetch with later clicks. Each handler and the
  effect it triggers form one atomic step; the article fetch's answer is a parameter of
  `HandleBusqueda`.
- Number formatting: `toLocaleString`, `Intl.NumberFormat`, `toFixed`, and the `String` of a
  number are parameters (`numeroATexto`, `formatCurrency`, `toLocaleString`). The model states
  where their results go, not their text.
- Floating point: money is exact. Rounding in `toFixed`, and the `NaN` that `parseInt` gives
  for an empty field, are not modelled. Quantities and amounts are integers converted to `real`.
- CartEngine.Detalles: the fixed-amount share divides by the cart subtotal. A zero subtotal
  (which gives `NaN` in JavaScript) is excluded by a precondition.
- Dates and times: the date and hour fields of the payloads, and the `formatDate` helpers.
- JSON: the cart is stored as a value, not as text. `JSON.stringify` and `JSON.parse` are
  taken to be inverses, and corrupt stored text is not modelled.
- Case folding: `toLowerCase` is modelled on ASCII and Latin-1 letters only.
- The placeholder entries of the currency and branch selects (the empty value) are not
  modelled as states. The selects only produce the listed currencies and branches.
- The request of the article fetch: the deposit, the stock-only flag and the session check
  that precede it are not modelled, because only the fetch's answer reaches the screen state.
- `parseInt` is a parameter (`parseInt` of `ArmarEnvio` and `Finalizar`), as are the formatting
  functions.
- CartEngine.ArmarEnvio: the payload's dates, times and expiry, the quotation's observations,
  freight, delivery term, payment condition and validity, and the detail lines' vendor, expiry
  and description are not part of the modelled payload. Each detail's vendor repeats the header
  operator. A quotation posts the batch once per detail (`lote`), standing for both
  `depre_codlote` and its text copy `depre_lote`; a sale posts none (`PuntoDeVenta.SinLote`).
- The Enter handlers (`SelectFirstArticulo`, `SelectFirstCliente`, `SelectFirstVendedor`): for an
  empty first name the source stores `undefined` as the search text, while the model stores the
  empty name. Moving the focus to the next input when nothing is recommended is UI and is not
  modelled.
- A render error unmounts the quotation screen. The model keeps it as a state (`caido`) in which
  no handler runs; the error boundary and the blank page are not modelled.
- The prototype's "Finalizar Venta" button has no handler, so there is nothing to model. Its
  catalogues are modelled as the constants written in the source.
- The sale print's `ve_total + ve_descuento` is modelled on numbers. JavaScript's `+` on a
  string operand (concatenation) is not modelled.
- PDF generation, printing and all JSX layout. Only the values computed for display are modelled.
- The `Authorization` header is a field of the session provider. The token interceptor of the
  axios configuration is not part of this model.
- The files that hold only UI, upload or login forms are not part of this model: the
  inventory, navigation, menu, header, items table and login views, and the application shell.
