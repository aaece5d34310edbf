/**
 * CartaoUtilidades: how many credit-card installments a charge allows.
 * Amounts are integer cents here; the source works on PHP floats.
 */
module CartaoUtilidades {

  /** The revenue types that allow more installments. */
  const TiposReceitaEstendidos: seq<int> := [22, 26, 30]

  /** The limit for a charge paid on its own: 5 for the extended revenue types, 3 for every other. */
  function CalcularLimiteParcelas(idTipoReceita: int): (r: int)
    ensures r == 5 || r == 3
    ensures r == 5 <==> idTipoReceita in TiposReceitaEstendidos
  {
    if idTipoReceita in TiposReceitaEstendidos then 5 else 3
  }

  /** The limit for a charge paid together with others: 12 for the extended revenue types, 3 for every other. */
  function CalcularLimiteParcelasNoCombo(idTipoReceita: int): (r: int)
    ensures r == 12 || r == 3
    ensures r == 12 <==> idTipoReceita in TiposReceitaEstendidos
    ensures r >= CalcularLimiteParcelas(idTipoReceita)
  {
    if idTipoReceita in TiposReceitaEstendidos then 12 else 3
  }

  /**
   * The number of installments allowed by a minimum installment value and a
   * maximum count: min(maxParcelas, floor(valorTotal / valorMinParcela)).
   * Dafny's division by a positive divisor is the floor.
   */
  function CalcularLimiteParcelasComValorMinimo(valorTotal: int, valorMinParcela: int, maxParcelas: int): (r: int)
    requires valorMinParcela > 0
    ensures r <= maxParcelas
    ensures r * valorMinParcela <= valorTotal
  {
    var porValor := valorTotal / valorMinParcela;
    assert porValor * valorMinParcela <= valorTotal by {
      assert valorTotal == porValor * valorMinParcela + valorTotal % valorMinParcela;
    }
    if maxParcelas <= porValor then
      assert maxParcelas * valorMinParcela <= porValor * valorMinParcela by {
        MultiplyMonotone(maxParcelas, porValor, valorMinParcela);
      }
      maxParcelas
    else
      porValor
  }

  lemma MultiplyMonotone(a: int, b: int, m: int)
    requires a <= b && m > 0
    ensures a * m <= b * m
  {
    assert b * m - a * m == (b - a) * m;
  }

  /**
   * The result is the largest count that respects both limits: any count k
   * with at most maxParcelas installments of at least valorMinParcela each
   * is no larger.
   */
  lemma ComValorMinimoIsLargest(valorTotal: int, valorMinParcela: int, maxParcelas: int, k: int)
    requires valorMinParcela > 0
    requires k <= maxParcelas && k * valorMinParcela <= valorTotal
    ensures k <= CalcularLimiteParcelasComValorMinimo(valorTotal, valorMinParcela, maxParcelas)
  {
    var q := valorTotal / valorMinParcela;
    if k > q {
      MultiplyMonotone(q + 1, k, valorMinParcela);
    }
  }

  /** An example from integer cents: R$ 100,00 with a R$ 30,00 minimum allows 3 installments, capped at 2 when the maximum is 2. */
  lemma ComValorMinimoExamples()
    ensures CalcularLimiteParcelasComValorMinimo(10000, 3000, 12) == 3
    ensures CalcularLimiteParcelasComValorMinimo(10000, 3000, 2) == 2
    ensures CalcularLimiteParcelasComValorMinimo(0, 3000, 12) == 0
  {
  }
}
