/**
 * The additive tax rule of the point-of-sale helpers (`src/views/puntodeventa/utils.ts`):
 * a price's tax is 5% when the rate list holds `"5%"`, plus 10% when it holds `"10%"`.
 */
module ImpuestoUtils {

  /** The combined rate a list of rate labels selects; any other label adds nothing. */
  function TasaCombinada(impuestos: seq<string>): (r: real)
    ensures r == 0.0 <==> "5%" !in impuestos && "10%" !in impuestos
    ensures r == 0.15 <==> "5%" in impuestos && "10%" in impuestos
    ensures 0.0 <= r <= 0.15
  {
    (if "5%" in impuestos then 0.05 else 0.0) + (if "10%" in impuestos then 0.10 else 0.0)
  }

  /** `calcularImpuesto`: the tax on `precio`, built up in two conditional steps. */
  method CalcularImpuesto(precio: real, impuestos: seq<string>) returns (impuesto: real)
    ensures impuesto == precio * TasaCombinada(impuestos)
  {
    impuesto := 0.0;
    if "5%" in impuestos {
      impuesto := impuesto + precio * 0.05;
    }
    if "10%" in impuestos {
      impuesto := impuesto + precio * 0.10;
    }
  }

  /** Two rate lists holding the same labels give the same tax, whatever their order and repetitions. */
  lemma SoloCuentanLasEtiquetas(a: seq<string>, b: seq<string>)
    requires forall x :: x in a <==> x in b
    ensures TasaCombinada(a) == TasaCombinada(b)
  {
    assert "5%" in a <==> "5%" in b;
    assert "10%" in a <==> "10%" in b;
  }

  /** Permuting the rate list does not change the tax. */
  lemma PermutarNoCambia(a: seq<string>, b: seq<string>)
    requires multiset(a) == multiset(b)
    ensures TasaCombinada(a) == TasaCombinada(b)
  {
    forall x ensures x in a <==> x in b {
      assert x in a <==> x in multiset(a);
      assert x in b <==> x in multiset(b);
    }
    SoloCuentanLasEtiquetas(a, b);
  }

  /** The tax is linear in the price and never negative for a non-negative price. */
  lemma ImpuestoLineal(p: real, q: real, k: real, impuestos: seq<string>)
    ensures (k * p + q) * TasaCombinada(impuestos) == k * (p * TasaCombinada(impuestos)) + q * TasaCombinada(impuestos)
    ensures p >= 0.0 ==> p * TasaCombinada(impuestos) >= 0.0
  {
  }
}
