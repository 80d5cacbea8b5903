/**
 * The invoice page's footer (`src/views/puntodeventa/facturaPdf.tsx`): the exempt, 5% and
 * 10% columns summed over the sold items, a missing value counting as zero, and the
 * currency formatting of possibly missing amounts.
 */
module FacturaPdf {
  import opened Wrappers

  /** A sold item as the database returns it; a column may be missing (`null`). */
  datatype ItemVendido = ItemVendido(
    cantidad: real, precio_unitario: real, subtotal: real,
    impuesto5: Option<real>, impuesto10: Option<real>, exentas: Option<real>)

  /** The three footer columns. */
  datatype Columna = Exentas | Cinco | Diez

  /** `value || 0`: a missing value (or zero) counts as zero. */
  function OCero(x: Option<real>): (r: real)
    ensures x.None? ==> r == 0.0
    ensures x.Some? ==> r == x.value
  {
    match x
    case None => 0.0
    case Some(v) => v
  }

  /** The one field of an item that a column adds up. */
  function Valor(item: ItemVendido, c: Columna): real {
    match c
    case Exentas => OCero(item.exentas)
    case Cinco => OCero(item.impuesto5)
    case Diez => OCero(item.impuesto10)
  }

  /** A column's total over a list of items. */
  function Suma(items: seq<ItemVendido>, c: Columna): real {
    if items == [] then 0.0 else Suma(items[..|items| - 1], c) + Valor(items[|items| - 1], c)
  }

  datatype Totales = Totales(totalExentas: real, total5: real, total10: real)

  /** `calculateTotals`: one pass over the items, each accumulator summing only its own column. */
  method CalculateTotals(itemsVendidos: seq<ItemVendido>) returns (t: Totales)
    ensures t == Totales(Suma(itemsVendidos, Exentas), Suma(itemsVendidos, Cinco), Suma(itemsVendidos, Diez))
    ensures itemsVendidos == [] ==> t == Totales(0.0, 0.0, 0.0)
  {
    var totalExentas := 0.0;
    var total5 := 0.0;
    var total10 := 0.0;
    var i := 0;
    while i < |itemsVendidos|
      invariant 0 <= i <= |itemsVendidos|
      invariant totalExentas == Suma(itemsVendidos[..i], Exentas)
      invariant total5 == Suma(itemsVendidos[..i], Cinco)
      invariant total10 == Suma(itemsVendidos[..i], Diez)
    {
      var item := itemsVendidos[i];
      assert itemsVendidos[..i + 1][..i] == itemsVendidos[..i];
      totalExentas := totalExentas + OCero(item.exentas);
      total5 := total5 + OCero(item.impuesto5);
      total10 := total10 + OCero(item.impuesto10);
      i := i + 1;
    }
    assert itemsVendidos[..|itemsVendidos|] == itemsVendidos;
    t := Totales(totalExentas, total5, total10);
  }

  /** A column's total over two lists put together is the sum of their totals. */
  lemma {:induction false} SumaConcat(a: seq<ItemVendido>, b: seq<ItemVendido>, c: Columna)
    ensures Suma(a + b, c) == Suma(a, c) + Suma(b, c)
  {
    if b == [] {
      assert a + b == a;
    } else {
      var ab := a + b;
      assert ab[..|ab| - 1] == a + b[..|b| - 1];
      assert ab[|ab| - 1] == b[|b| - 1];
      SumaConcat(a, b[..|b| - 1], c);
    }
  }

  /** Dropping the element at `j` removes one copy of it from the list's multiset. */
  lemma QuitarDelMultiset<T>(b: seq<T>, j: nat)
    requires j < |b|
    ensures multiset(b[..j] + b[j + 1..]) == multiset(b) - multiset{b[j]}
  {
    assert b == b[..j] + [b[j]] + b[j + 1..];
  }

  /** A column's total is the total without the element at `j`, plus that element's value. */
  lemma SumaSinUno(b: seq<ItemVendido>, j: nat, c: Columna)
    requires j < |b|
    ensures Suma(b, c) == Suma(b[..j] + b[j + 1..], c) + Valor(b[j], c)
  {
    assert b == (b[..j] + [b[j]]) + b[j + 1..];
    SumaConcat(b[..j] + [b[j]], b[j + 1..], c);
    SumaConcat(b[..j], [b[j]], c);
    SumaConcat(b[..j], b[j + 1..], c);
    assert Suma([b[j]], c) == Valor(b[j], c) by { assert [b[j]][..0] == []; }
  }

  /**
   * For two permutations of each other, a position in `b` holding the last element of `a`;
   * the rests are again permutations of each other.
   */
  lemma MismoUltimo<T>(a: seq<T>, b: seq<T>) returns (j: nat)
    requires a != [] && multiset(a) == multiset(b)
    ensures j < |b| && b[j] == a[|a| - 1]
    ensures multiset(a[..|a| - 1]) == multiset(b[..j] + b[j + 1..])
  {
    var x := a[|a| - 1];
    assert x in multiset(b);
    j :| 0 <= j < |b| && b[j] == x;
    QuitarDelMultiset(b, j);
    QuitarDelMultiset(a, |a| - 1);
    assert a[..|a| - 1] + a[|a|..] == a[..|a| - 1];
  }

  /** The totals do not depend on the order of the items. */
  lemma {:induction false} SumaPermutacion(a: seq<ItemVendido>, b: seq<ItemVendido>, c: Columna)
    requires multiset(a) == multiset(b)
    ensures Suma(a, c) == Suma(b, c)
    decreases |a|
  {
    if a == [] {
      assert b == [] by { assert |multiset(b)| == 0; }
    } else {
      var j := MismoUltimo(a, b);
      SumaPermutacion(a[..|a| - 1], b[..j] + b[j + 1..], c);
      SumaSinUno(b, j, c);
    }
  }

  /** `formatCurrency`: `N/A` for a missing amount, otherwise `Gs. ` and the amount as `toLocaleString` writes it. */
  function FormatCurrency(amount: Option<real>, toLocaleString: real -> string): (r: string)
    ensures r == "N/A" <==> amount.None?
    ensures amount.Some? ==> r == "Gs. " + toLocaleString(amount.value)
  {
    match amount
    case None => "N/A"
    case Some(a) => "Gs. " + toLocaleString(a)
  }
}
