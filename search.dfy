/**
 * The recommendation lists of the sale and quotation screens: a `filter` over a catalogue
 * followed by `slice(0, 5)`, and the client and vendor matching both screens share.
 */
module Search {
  import opened JsStrings

  /** `a` is `b` with some elements dropped, the rest kept in their order. */
  predicate IsSubsequence<T(==)>(a: seq<T>, b: seq<T>)
    decreases |b|
  {
    if a == [] then true
    else if b == [] then false
    else (a[0] == b[0] && IsSubsequence(a[1..], b[1..])) || IsSubsequence(a, b[1..])
  }

  /** `xs.filter(p)`: the elements satisfying `p`, in their original order. */
  function Filter<T(==)>(xs: seq<T>, p: T -> bool): (r: seq<T>)
    ensures |r| <= |xs|
    ensures forall i :: 0 <= i < |r| ==> r[i] in xs && p(r[i])
    ensures forall i :: 0 <= i < |xs| && p(xs[i]) ==> xs[i] in r
    ensures IsSubsequence(r, xs)
    ensures forall x {:trigger multiset(r)[x]} | x in xs :: multiset(r)[x] == if p(x) then multiset(xs)[x] else 0
  {
    assert xs != [] ==> xs == [xs[0]] + xs[1..];
    if xs == [] then []
    else if p(xs[0]) then [xs[0]] + Filter(xs[1..], p)
    else Filter(xs[1..], p)
  }

  /** A filter whose predicate holds everywhere keeps the whole list. */
  lemma {:induction false} FilterAll<T>(xs: seq<T>, p: T -> bool)
    requires forall i :: 0 <= i < |xs| ==> p(xs[i])
    ensures Filter(xs, p) == xs
  {
    if xs != [] {
      FilterAll(xs[1..], p);
    }
  }

  /** Filtering by a conjunction is filtering twice. */
  lemma {:induction false} FilterConj<T>(xs: seq<T>, p: T -> bool, q: T -> bool)
    ensures Filter(xs, x => p(x) && q(x)) == Filter(Filter(xs, p), q)
  {
    if xs != [] {
      FilterConj(xs[1..], p, q);
      if p(xs[0]) {
        assert ([xs[0]] + Filter(xs[1..], p))[1..] == Filter(xs[1..], p);
      }
    }
  }

  /** Filtering an already filtered list by the same predicate changes nothing. */
  lemma {:induction false} FilterIdempotent<T>(xs: seq<T>, p: T -> bool)
    ensures Filter(Filter(xs, p), p) == Filter(xs, p)
  {
    if xs != [] {
      FilterIdempotent(xs[1..], p);
      if p(xs[0]) {
        assert ([xs[0]] + Filter(xs[1..], p))[1..] == Filter(xs[1..], p);
      }
    }
  }

  /** The head of a non-empty filter is the first element of the list that satisfies the predicate. */
  lemma {:induction false} FilterPrimero<T>(xs: seq<T>, p: T -> bool) returns (i: nat)
    requires Filter(xs, p) != []
    ensures i < |xs| && xs[i] == Filter(xs, p)[0] && p(xs[i])
    ensures forall j :: 0 <= j < i ==> !p(xs[j])
  {
    if p(xs[0]) {
      i := 0;
    } else {
      var k := FilterPrimero(xs[1..], p);
      i := k + 1;
      assert forall j :: 1 <= j < i ==> xs[j] == xs[1..][j - 1];
    }
  }

  const MaxRecomendaciones := 5

  /** `xs.slice(0, n)`. */
  function Take<T>(xs: seq<T>, n: nat): (r: seq<T>)
    ensures |r| == if |xs| < n then |xs| else n
    ensures r == xs[..|r|]
  {
    if |xs| < n then xs else xs[..n]
  }

  /**
   * A recommendation list: nothing for an empty query, otherwise the first five catalogue
   * entries that match, in catalogue order.
   */
  function Recomendar<T(==)>(query: string, xs: seq<T>, matches: T -> bool): (r: seq<T>)
    ensures query == "" ==> r == []
    ensures |r| <= MaxRecomendaciones
    ensures forall i :: 0 <= i < |r| ==> r[i] in xs && matches(r[i])
    ensures query != "" ==> |r| <= |Filter(xs, matches)| && r == Filter(xs, matches)[..|r|]
    ensures query != "" && |Filter(xs, matches)| <= MaxRecomendaciones ==> r == Filter(xs, matches)
  {
    if query == "" then [] else Take(Filter(xs, matches), MaxRecomendaciones)
  }

  /** A taken prefix is a subsequence of the list it is taken from. */
  lemma {:induction false} PrefixIsSubsequence<T>(xs: seq<T>, n: nat)
    requires n <= |xs|
    ensures IsSubsequence(xs[..n], xs)
  {
    if n > 0 {
      assert xs[..n][1..] == xs[1..][..n - 1];
      PrefixIsSubsequence(xs[1..], n - 1);
    }
  }

  /** Subsequences compose. */
  lemma {:induction false} SubsequenceTrans<T>(a: seq<T>, b: seq<T>, c: seq<T>)
    requires IsSubsequence(a, b) && IsSubsequence(b, c)
    ensures IsSubsequence(a, c)
    decreases |c|
  {
    if a != [] {
      assert c != [];
      if b[0] == c[0] && IsSubsequence(b[1..], c[1..]) {
        if a[0] == b[0] && IsSubsequence(a[1..], b[1..]) {
          SubsequenceTrans(a[1..], b[1..], c[1..]);
        } else {
          SubsequenceTrans(a, b[1..], c[1..]);
        }
      } else {
        SubsequenceTrans(a, b, c[1..]);
      }
    }
  }

  /** A recommendation list never reorders the catalogue. */
  lemma RecomendarIsSubsequence<T>(query: string, xs: seq<T>, matches: T -> bool)
    ensures IsSubsequence(Recomendar(query, xs, matches), xs)
  {
    var r := Recomendar(query, xs, matches);
    if query != "" {
      PrefixIsSubsequence(Filter(xs, matches), |r|);
      SubsequenceTrans(r, Filter(xs, matches), xs);
    }
  }

  /** A client as the sale and quotation screens receive it. */
  datatype Cliente = Cliente(
    cli_codigo: int, cli_interno: int, cli_razon: string, cli_ruc: string, cli_limitecredito: real)

  /** A vendor (operator); its code is text. */
  datatype Vendedor = Vendedor(id: int, op_nombre: string, op_codigo: string)

  /** A client matches when its name contains the query ignoring case, or its RUC or internal number contains it. */
  predicate ClienteCoincide(q: string, c: Cliente) {
    Includes(Lower(c.cli_razon), Lower(q)) || Includes(c.cli_ruc, q) || Includes(IntToString(c.cli_interno), q)
  }

  /** A vendor matches when its name contains the query ignoring case, or its code contains it. */
  predicate VendedorCoincide(q: string, v: Vendedor) {
    Includes(Lower(v.op_nombre), Lower(q)) || Includes(v.op_codigo, q)
  }

  /** The client filter for one query. */
  function CoincideCliente(q: string): Cliente -> bool {
    c => ClienteCoincide(q, c)
  }

  /** The vendor filter for one query. */
  function CoincideVendedor(q: string): Vendedor -> bool {
    v => VendedorCoincide(q, v)
  }

  /** A client is always recommended for its own RUC, provided at most five clients match it. */
  lemma ClienteEncontradoPorRuc(c: Cliente, clientes: seq<Cliente>)
    requires c in clientes && c.cli_ruc != ""
    requires |Filter(clientes, CoincideCliente(c.cli_ruc))| <= MaxRecomendaciones
    ensures c in Recomendar(c.cli_ruc, clientes, CoincideCliente(c.cli_ruc))
  {
    IncludesSelf(c.cli_ruc);
  }
}
