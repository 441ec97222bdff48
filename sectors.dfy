/**
 * The sector roll-up of `analise_margens`: the revenue and cost movements of the
 * first three subsector definitions ("Vendas") and of the rest ("Pós-Vendas") are
 * summed with Python's `sum`, then result and margin are computed once per sector.
 */
module Sectors {
  import opened Wrappers
  import opened Balances
  import opened Margins

  /** Revenue account ids of the definitions, in order. */
  function Receitas(contas: seq<Segmento>): (ids: seq<string>)
    ensures |ids| == |contas| && forall i :: 0 <= i < |contas| ==> ids[i] == contas[i].receita
  {
    seq(|contas|, i requires 0 <= i < |contas| => contas[i].receita)
  }

  /** Cost account ids of the definitions, in order. */
  function Custos(contas: seq<Segmento>): (ids: seq<string>)
    ensures |ids| == |contas| && forall i :: 0 <= i < |contas| ==> ids[i] == contas[i].custo
  {
    seq(|contas|, i requires 0 <= i < |contas| => contas[i].custo)
  }

  /**
   * `sum(obter_valor_conta(doc, id) for id in ids)`: left to right from 0; a
   * missing account adds `None`, which raises, modelled as no value at all.
   */
  function Soma(doc: Documento, ids: seq<string>): (s: Option<real>)
    ensures s.Some? <==> forall i :: 0 <= i < |ids| ==> ValorConta(doc, ids[i]).Some?
    ensures s.Some? ==> EmCentavos(s.value)
    decreases |ids|
  {
    if ids == [] then Some(0.0)
    else
      var anterior := Soma(doc, ids[..|ids| - 1]);
      var ultimo := ValorConta(doc, ids[|ids| - 1]);
      if anterior.None? || ultimo.None? then None
      else
        CentavosSoma(anterior.value, ultimo.value);
        Some(anterior.value + ultimo.value)
  }

  /**
   * The sector entry as `analise_margens` writes it: `(-r - c) / 1000` and the
   * margin `(r + c) / r * 100`, or 0 when `r` is 0. It is the per-segment formula.
   */
  function LinhaSetor(nome: string, receita: real, custo: real): (l: Linha)
    ensures l == LinhaDe(nome, receita, custo)
  {
    Linha(nome, (-receita - custo) / 1000.0,
          if receita != 0.0 then (receita + custo) / receita * 100.0 else 0.0)
  }

  /** Where Python's `contas[:3]` ends and `contas[3:]` begins. */
  function Corte(contas: seq<Segmento>): (n: nat)
    ensures n <= |contas|
  {
    if |contas| < 3 then |contas| else 3
  }

  function Vendas(contas: seq<Segmento>): seq<Segmento> { contas[..Corte(contas)] }

  function PosVendas(contas: seq<Segmento>): seq<Segmento> { contas[Corte(contas)..] }

  /** The two-sector view; no value when a `sum` meets a missing account. */
  function Consolida(contas: seq<Segmento>, doc: Documento): (r: Option<seq<Linha>>)
    ensures r.Some? ==> |r.value| == 2 && r.value[0].nome == "Vendas" && r.value[1].nome == "Pós-Vendas"
  {
    var vendasReceita := Soma(doc, Receitas(Vendas(contas)));
    var vendasCusto := Soma(doc, Custos(Vendas(contas)));
    var posVendasReceita := Soma(doc, Receitas(PosVendas(contas)));
    var posVendasCusto := Soma(doc, Custos(PosVendas(contas)));
    if vendasReceita.None? || vendasCusto.None? || posVendasReceita.None? || posVendasCusto.None? then None
    else Some([LinhaSetor("Vendas", vendasReceita.value, vendasCusto.value),
               LinhaSetor("Pós-Vendas", posVendasReceita.value, posVendasCusto.value)])
  }

  /** The roll-up has a value iff every account of every definition is found. */
  lemma ConsolidaDefinidaSse(contas: seq<Segmento>, doc: Documento)
    ensures Consolida(contas, doc).Some? <==> forall j :: 0 <= j < |contas| ==> Incluido(contas[j], doc)
  {
    var n := Corte(contas);
    var v, p := Vendas(contas), PosVendas(contas);
    assert forall j :: 0 <= j < n ==> contas[j] == v[j];
    assert forall j :: n <= j < |contas| ==> contas[j] == p[j - n];
    if Consolida(contas, doc).Some? {
      forall j | 0 <= j < |contas| ensures Incluido(contas[j], doc) {
        if j < n {
          assert Receitas(v)[j] == contas[j].receita && Custos(v)[j] == contas[j].custo;
        } else {
          assert Receitas(p)[j - n] == contas[j].receita && Custos(p)[j - n] == contas[j].custo;
        }
      }
    }
  }

  /** Sum of the result column. */
  function SomaResultados(ls: seq<Linha>): real
    decreases |ls|
  {
    if ls == [] then 0.0 else SomaResultados(ls[..|ls| - 1]) + ls[|ls| - 1].resultado
  }

  /** Extending a group by an included segment adds its movements to both sums. */
  lemma SomasPasso(g: seq<Segmento>, doc: Documento)
    requires |g| > 0 && Incluido(g[|g| - 1], doc)
    requires Soma(doc, Receitas(g[..|g| - 1])).Some? && Soma(doc, Custos(g[..|g| - 1])).Some?
    ensures Soma(doc, Receitas(g)) == Some(Soma(doc, Receitas(g[..|g| - 1])).value
                                           + ValorConta(doc, g[|g| - 1].receita).value)
    ensures Soma(doc, Custos(g)) == Some(Soma(doc, Custos(g[..|g| - 1])).value
                                         + ValorConta(doc, g[|g| - 1].custo).value)
  {
    var n := |g| - 1;
    assert Receitas(g)[..n] == Receitas(g[..n]) && Receitas(g)[n] == g[n].receita;
    assert Custos(g)[..n] == Custos(g[..n]) && Custos(g)[n] == g[n].custo;
  }

  /** Extending a group by an included segment adds its result to the result column. */
  lemma SomaResultadosPasso(g: seq<Segmento>, doc: Documento)
    requires |g| > 0 && Incluido(g[|g| - 1], doc)
    ensures SomaResultados(Calcula(g, doc))
            == SomaResultados(Calcula(g[..|g| - 1], doc)) + LinhaDoSegmento(g[|g| - 1], doc).resultado
  {
    var ls := Calcula(g, doc);
    assert ls == Calcula(g[..|g| - 1], doc) + [LinhaDoSegmento(g[|g| - 1], doc)];
    assert ls[..|ls| - 1] == Calcula(g[..|g| - 1], doc);
  }

  /**
   * For a group whose accounts are all found, the per-segment results add up to the
   * result of the summed revenue and cost movements.
   */
  lemma {:induction false} SomaResultadosDoGrupo(g: seq<Segmento>, doc: Documento)
    requires forall j :: 0 <= j < |g| ==> Incluido(g[j], doc)
    ensures Soma(doc, Receitas(g)).Some? && Soma(doc, Custos(g)).Some?
    ensures SomaResultados(Calcula(g, doc))
            == (-Soma(doc, Receitas(g)).value - Soma(doc, Custos(g)).value) / 1000.0
    decreases |g|
  {
    if g != [] {
      var n := |g| - 1;
      var ini := g[..n];
      assert forall j :: 0 <= j < |ini| ==> ini[j] == g[j];
      SomaResultadosDoGrupo(ini, doc);
      assert Incluido(g[n], doc);
      SomasPasso(g, doc);
      SomaResultadosPasso(g, doc);
    }
  }

  /**
   * The sector results equal the sums of the subsector results `calcular_resultados_margens`
   * gives for the same two groups.
   */
  lemma ConsolidaSomaSubsetores(contas: seq<Segmento>, doc: Documento)
    requires Consolida(contas, doc).Some?
    ensures Consolida(contas, doc).value[0].resultado == SomaResultados(Calcula(Vendas(contas), doc))
    ensures Consolida(contas, doc).value[1].resultado == SomaResultados(Calcula(PosVendas(contas), doc))
  {
    ConsolidaDefinidaSse(contas, doc);
    var n := Corte(contas);
    var v, p := Vendas(contas), PosVendas(contas);
    assert forall j :: 0 <= j < |v| ==> v[j] == contas[j];
    assert forall j :: 0 <= j < |p| ==> p[j] == contas[j + n];
    SomaResultadosDoGrupo(v, doc);
    SomaResultadosDoGrupo(p, doc);
  }

  /** The entry's margin is `-resultado * 1000` over the summed revenue, or 0 when that is 0. */
  predicate MargemDoSetor(l: Linha, receita: Option<real>)
  {
    receita.Some?
    && (receita.value != 0.0 ==> l.margem == -(l.resultado * 1000.0) / receita.value * 100.0)
    && (receita.value == 0.0 ==> l.margem == 0.0)
  }

  /**
   * Each sector margin is `-resultado * 1000` over the sector's summed revenue, or 0
   * when that sum is 0.
   */
  lemma ConsolidaMargens(contas: seq<Segmento>, doc: Documento)
    requires Consolida(contas, doc).Some?
    ensures MargemDoSetor(Consolida(contas, doc).value[0], Soma(doc, Receitas(Vendas(contas))))
    ensures MargemDoSetor(Consolida(contas, doc).value[1], Soma(doc, Receitas(PosVendas(contas))))
  {
    var vr, vc := Soma(doc, Receitas(Vendas(contas))).value, Soma(doc, Custos(Vendas(contas))).value;
    var pr, pc := Soma(doc, Receitas(PosVendas(contas))).value, Soma(doc, Custos(PosVendas(contas))).value;
    assert Consolida(contas, doc).value == [LinhaDe("Vendas", vr, vc), LinhaDe("Pós-Vendas", pr, pc)];
  }

  /** A balance document holding one item per summed movement, under the ids "1" to "4". */
  function DocumentoSintetico(vr: real, vc: real, pr: real, pc: real): Documento
  {
    [Saldo("1", 0.0, vr), Saldo("2", 0.0, vc), Saldo("3", 0.0, pr), Saldo("4", 0.0, pc)]
  }

  /** One definition per sector, reading the synthetic document. */
  const SegmentosSinteticos: seq<Segmento> :=
    [Segmento("Vendas", "1", "2"), Segmento("Pós-Vendas", "3", "4")]

  /** Each id of the synthetic document finds its own cent-valued movement. */
  lemma ValorContaSintetico(vr: real, vc: real, pr: real, pc: real)
    requires EmCentavos(vr) && EmCentavos(vc) && EmCentavos(pr) && EmCentavos(pc)
    ensures var d := DocumentoSintetico(vr, vc, pr, pc);
      ValorConta(d, "1") == Some(vr) && ValorConta(d, "2") == Some(vc)
      && ValorConta(d, "3") == Some(pr) && ValorConta(d, "4") == Some(pc)
  {
    var d := DocumentoSintetico(vr, vc, pr, pc);
    Arredonda2Centavos(vr);
    Arredonda2Centavos(vc);
    Arredonda2Centavos(pr);
    Arredonda2Centavos(pc);
    ValorContaPrimeira(d, "2");
    ValorContaPrimeira(d, "3");
    ValorContaPrimeira(d, "4");
    assert PrimeiraOcorrencia(d, "2", 1);
    assert PrimeiraOcorrencia(d, "3", 2);
    assert PrimeiraOcorrencia(d, "4", 3);
  }

  /**
   * The roll-up is `calcular_resultados_margens` run on one synthetic segment per
   * sector whose movements are the sums: the sums are cent values, so the lookup's
   * rounding leaves them unchanged.
   */
  lemma ConsolidaEhCalculaSintetico(contas: seq<Segmento>, doc: Documento)
    requires Consolida(contas, doc).Some?
    ensures Consolida(contas, doc).value == Calcula(SegmentosSinteticos, DocumentoSintetico(
      Soma(doc, Receitas(Vendas(contas))).value, Soma(doc, Custos(Vendas(contas))).value,
      Soma(doc, Receitas(PosVendas(contas))).value, Soma(doc, Custos(PosVendas(contas))).value))
  {
    var vr, vc := Soma(doc, Receitas(Vendas(contas))).value, Soma(doc, Custos(Vendas(contas))).value;
    var pr, pc := Soma(doc, Receitas(PosVendas(contas))).value, Soma(doc, Custos(PosVendas(contas))).value;
    var d := DocumentoSintetico(vr, vc, pr, pc);
    ValorContaSintetico(vr, vc, pr, pc);
    var s := SegmentosSinteticos;
    assert s[..1][..0] == [] && s[..1] == [s[0]];
    assert Calcula(s[..1], d) == [LinhaDe("Vendas", vr, vc)];
  }
}
