/**
 * The parsed balance document (`SDT_SaldoContabilItem` records) and the account
 * lookup `obter_valor_conta`, which returns the period's movement of one account
 * rounded to cents.
 */
module Balances {
  import opened Wrappers

  /** One balance item: `ContaIDNivel`, `SaldoInicial`, `SaldoFinal`. */
  datatype Saldo = Saldo(conta: string, inicial: real, final: real)

  /** The items of one response, in document order. */
  type Documento = seq<Saldo>

  // ---------------------------------------------------------------------------
  // `np.round(x, 2)`: x is scaled by 100, rounded half to even, scaled back.

  /** Nearest integer, ties to the even neighbour. */
  function ArredondaMeioPar(y: real): (k: int)
    ensures -0.5 <= (k as real) - y <= 0.5
    ensures ((k as real) - y == 0.5 || y - (k as real) == 0.5) ==> k % 2 == 0
    ensures y == y.Floor as real ==> k == y.Floor
  {
    var f := y.Floor;
    var frac := y - f as real;
    if frac < 0.5 then f
    else if frac > 0.5 then f + 1
    else if f % 2 == 0 then f
    else f + 1
  }

  /** A whole number of cents. */
  predicate EmCentavos(x: real) {
    (x * 100.0).Floor as real == x * 100.0
  }

  /**
   * Rounding to two decimals lands on a cent value at most half a cent away; a value
   * exactly halfway between two cents goes to the even one.
   */
  function Arredonda2(x: real): (r: real)
    ensures -0.005 <= r - x <= 0.005
    ensures EmCentavos(r)
    ensures x * 100.0 - (x * 100.0).Floor as real == 0.5 ==> (r * 100.0).Floor % 2 == 0
  {
    var k := ArredondaMeioPar(x * 100.0);
    var r := k as real / 100.0;
    assert r * 100.0 == k as real;
    assert r - x == ((k as real) - x * 100.0) / 100.0;
    assert (r * 100.0).Floor == k;
    r
  }

  /** Rounding leaves a cent value unchanged, so it is idempotent. */
  lemma Arredonda2Centavos(x: real)
    requires EmCentavos(x)
    ensures Arredonda2(x) == x
  {
    var k := ArredondaMeioPar(x * 100.0);
    assert k == (x * 100.0).Floor;
  }

  lemma CentavosSoma(a: real, b: real)
    requires EmCentavos(a) && EmCentavos(b)
    ensures EmCentavos(a + b)
  {
    var ka, kb := (a * 100.0).Floor, (b * 100.0).Floor;
    assert (a + b) * 100.0 == (ka + kb) as real;
  }

  // ---------------------------------------------------------------------------
  // The lookup.

  /** The rounded movement `SaldoFinal - SaldoInicial` of one item. */
  function Variacao(s: Saldo): real
  {
    Arredonda2(s.final - s.inicial)
  }

  /** `i` is the first position of the document whose account id is `conta`. */
  predicate PrimeiraOcorrencia(doc: Documento, conta: string, i: int)
  {
    0 <= i < |doc| && doc[i].conta == conta && forall j :: 0 <= j < i ==> doc[j].conta != conta
  }

  /** What `obter_valor_conta` returns, as a function of the document. */
  function ValorConta(doc: Documento, conta: string): (v: Option<real>)
    ensures v.Some? ==> EmCentavos(v.value)
    decreases |doc|
  {
    if doc == [] then None
    else if doc[0].conta == conta then Some(Variacao(doc[0]))
    else ValorConta(doc[1..], conta)
  }

  /** The lookup answers the first matching item, and nothing iff no item matches. */
  lemma {:induction false} ValorContaPrimeira(doc: Documento, conta: string)
    ensures ValorConta(doc, conta).None? <==> forall i :: 0 <= i < |doc| ==> doc[i].conta != conta
    ensures forall i :: PrimeiraOcorrencia(doc, conta, i) ==> ValorConta(doc, conta) == Some(Variacao(doc[i]))
    decreases |doc|
  {
    if doc != [] && doc[0].conta != conta {
      ValorContaPrimeira(doc[1..], conta);
      forall i | PrimeiraOcorrencia(doc, conta, i)
        ensures PrimeiraOcorrencia(doc[1..], conta, i - 1)
      {
      }
      if ValorConta(doc, conta).Some? {
        var i :| 0 <= i < |doc[1..]| && doc[1..][i].conta == conta;
        assert doc[i + 1].conta == conta;
      }
    }
  }

  /** The linear scan with early return of `obter_valor_conta`. */
  method ObterValorConta(doc: Documento, conta: string) returns (v: Option<real>)
    ensures v == ValorConta(doc, conta)
    ensures v.None? <==> forall i :: 0 <= i < |doc| ==> doc[i].conta != conta
    ensures v.Some? ==> exists i :: PrimeiraOcorrencia(doc, conta, i) && v.value == Variacao(doc[i])
  {
    ValorContaPrimeira(doc, conta);
    var i := 0;
    while i < |doc|
      invariant 0 <= i <= |doc|
      invariant forall j :: 0 <= j < i ==> doc[j].conta != conta
    {
      if doc[i].conta == conta {
        assert PrimeiraOcorrencia(doc, conta, i);
        return Some(Variacao(doc[i]));
      }
      i := i + 1;
    }
    return None;
  }
}
