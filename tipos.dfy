/**
 * The point-of-sale record shapes (`src/views/puntodeventa/types.ts`), shared by the
 * prototype screen and the article search component, and the article match both use.
 */
module Tipos {
  import opened JsStrings

  datatype Articulo = Articulo(id: int, nombre: string, precio: real, codigo: string)

  /** A cart line as the article search component builds it. */
  datatype Item = Item(
    id: int, nombre: string, precio: real, codigo: string,
    precioOriginal: real, precioUnitario: real, cantidad: real, impuesto: real, subtotal: real)

  datatype Cliente = Cliente(id: int, nombre: string, ruc: string, lineaCredito: real)
  datatype Vendedor = Vendedor(id: int, nombre: string, codigo: string)

  /** An article matches when its name or its code contains the query, ignoring case. */
  predicate ArticuloCoincide(q: string, a: Articulo) {
    Includes(Lower(a.nombre), Lower(q)) || Includes(Lower(a.codigo), Lower(q))
  }

  function CoincideArticulo(q: string): Articulo -> bool { a => ArticuloCoincide(q, a) }
}
