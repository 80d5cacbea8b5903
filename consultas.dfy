/**
 * What the budget and sales consultation screens share: the case-insensitive "contains"
 * test of their list filters, and the expand/collapse selection of a row whose details are
 * fetched on demand.
 */
module Consultas {
  import opened Wrappers
  import opened JsStrings

  /** `campo.toLowerCase().includes(filtro.toLowerCase())`. */
  predicate Contiene(campo: string, filtro: string) {
    Includes(Lower(campo), Lower(filtro))
  }

  /** An empty filter excludes nothing. */
  lemma ContieneVacio(campo: string)
    ensures Contiene(campo, "")
  {
    assert Lower("") == "";
    IncludesEmpty(Lower(campo));
  }

  /**
   * The selected row of a consultation list and its details. `D` is the detail line type;
   * `registro` is the code of the record whose details were last shown.
   */
  class Seleccion<D> {
    var seleccionado: Option<int>
    var detalle: seq<D>
    var registro: Option<int>

    /** Nothing selected means no details are shown. */
    ghost predicate Valid()
      reads this
    {
      seleccionado.None? ==> detalle == []
    }

    constructor()
      ensures Valid()
      ensures seleccionado.None? && detalle == [] && registro.None?
    {
      seleccionado := None;
      detalle := [];
      registro := None;
    }

    /**
     * `handleVentaClick`: clicking the open row closes it and clears its details; clicking
     * any other row opens it and fetches its details. `respuesta` is the fetch's outcome:
     * the details on success, `None` on a failed request, which leaves the previous details
     * in place.
     */
    method HandleVentaClick(codigo: int, respuesta: Option<seq<D>>)
      requires Valid()
      modifies this
      ensures Valid()
      ensures old(seleccionado) == Some(codigo) ==>
        seleccionado.None? && detalle == [] && registro == Some(codigo)
      ensures old(seleccionado) != Some(codigo) ==> seleccionado == Some(codigo)
      ensures old(seleccionado) != Some(codigo) && respuesta.Some? ==>
        detalle == respuesta.value && registro == Some(codigo)
      ensures old(seleccionado) != Some(codigo) && respuesta.None? ==>
        detalle == old(detalle) && registro == old(registro)
    {
      if seleccionado == Some(codigo) {
        seleccionado := None;
        detalle := [];
        registro := Some(codigo);
      } else {
        seleccionado := Some(codigo);
        if respuesta.Some? {
          detalle := respuesta.value;
          registro := Some(codigo);
        }
      }
    }
  }

  /** Clicking the same row twice, with its details fetched, closes it again and clears the details. */
  method DosClicsCierran<D>(codigo: int, detalles: seq<D>) returns (s: Seleccion<D>)
    ensures s.seleccionado.None? && s.detalle == [] && s.registro == Some(codigo)
  {
    s := new Seleccion();
    s.HandleVentaClick(codigo, Some(detalles));
    s.HandleVentaClick(codigo, Some(detalles));
  }
}
