/**
 * The dashboard entry points around the calculator: `analise_margens` (the
 * Streamlit dashboards), the table choice of the Dash callback `atualizar_grafico`,
 * and the twelve-month loop `analise_margens_ano`. The SOAP request is an outside
 * call: its outcome is an input, `None` when the response's status is not 200 or
 * it carries no `Xml_retorno` text.
 */
module Dashboards {
  import opened Wrappers
  import opened Balances
  import opened Margins
  import opened Sectors

  /** The subsector definitions shared by all dashboards. */
  const Subsetores: seq<Segmento> := [
    Segmento("VN Passageiros", "3.1.1.001.000001", "3.3.1.001.000001"),
    Segmento("VN Comerciais Leves", "3.1.1.001.000002", "3.3.1.001.000002"),
    Segmento("Seminovos", "3.1.1.002.000001", "3.3.1.002.000001"),
    Segmento("Peças Atacado", "3.1.1.003.000001", "3.3.1.003.000001"),
    Segmento("Peças Varejo", "3.1.1.003.000002", "3.3.1.003.000002"),
    Segmento("Peças Mecânica", "3.1.1.003.000003", "3.3.1.003.000003"),
    Segmento("Peças Funilaria e Pintura", "3.1.1.003.000004", "3.3.1.003.000004"),
    Segmento("Peças Garantia", "3.1.1.003.000005", "3.3.1.003.000005"),
    Segmento("Peças Interna", "3.1.1.003.000006", "3.3.1.003.000006"),
    Segmento("Acessórios", "3.1.1.003.000007", "3.3.1.003.000007"),
    Segmento("Combustíveis e Lubrificantes", "3.1.1.003.000008", "3.3.1.003.000008"),
    Segmento("Pneus e Câmaras", "3.1.1.003.000009", "3.3.1.003.000009")
  ]

  /** The Dash dashboard's sector table: two fixed definitions, not a roll-up. */
  const SetoresDash: seq<Segmento> := [
    Segmento("Vendas", "3.1.1.001.000001", "3.3.1.001.000001"),
    Segmento("Pós-Vendas", "3.1.1.002.000001", "3.3.1.002.000001")
  ]

  const AnaliseSubsetorial: string := "Análise Subsetorial"

  /** What `analise_margens` ends with. */
  datatype Analise =
    | SemDados                        // the request failed: returns None, no chart
    | ContaAusente                    // a sector `sum` met a missing account: raises
    | Grafico(linhas: seq<Linha>)     // the chart's names, results and margins

  /**
   * `analise_margens(tipo, mes, ano)` given the outcome of the request: the
   * subsector view runs the calculator on the twelve definitions, any other `tipo`
   * the two-sector roll-up.
   */
  function AnaliseMargens(tipo: string, obtido: Option<Documento>): (a: Analise)
    ensures a.SemDados? <==> obtido.None?
    ensures a.ContaAusente? ==> tipo != AnaliseSubsetorial
    ensures a.Grafico? && tipo == AnaliseSubsetorial ==> |a.linhas| <= |Subsetores|
    ensures a.Grafico? && tipo != AnaliseSubsetorial ==>
      |a.linhas| == 2 && a.linhas[0].nome == "Vendas" && a.linhas[1].nome == "Pós-Vendas"
  {
    match obtido
    case None => SemDados
    case Some(doc) =>
      if tipo == AnaliseSubsetorial then Grafico(Calcula(Subsetores, doc))
      else
        match Consolida(Subsetores, doc)
        case None => ContaAusente
        case Some(linhas) => Grafico(linhas)
  }

  /**
   * `ls` is what the calculator makes of the subsector table: entry k belongs to the
   * k-th subsector whose two accounts are found, positions increase, and a subsector
   * is shown iff its two accounts are found.
   */
  predicate MostraSubsetoresIncluidos(ls: seq<Linha>, doc: Documento)
  {
    var idx := Incluidos(Subsetores, doc);
    |ls| == |idx|
    && (forall k :: 0 <= k < |idx| ==>
          idx[k] < |Subsetores| && Incluido(Subsetores[idx[k]], doc)
          && ls[k] == LinhaDoSegmento(Subsetores[idx[k]], doc))
    && (forall k1, k2 :: 0 <= k1 < k2 < |idx| ==> idx[k1] < idx[k2])
    && (forall j :: 0 <= j < |Subsetores| ==> (Incluido(Subsetores[j], doc) <==> j in idx))
  }

  /** The subsector view of `analise_margens` always charts the calculator's selection. */
  lemma AnaliseSubsetorialSeleciona(doc: Documento)
    ensures AnaliseMargens(AnaliseSubsetorial, Some(doc)).Grafico?
    ensures MostraSubsetoresIncluidos(AnaliseMargens(AnaliseSubsetorial, Some(doc)).linhas, doc)
  {
    CalculaSeleciona(Subsetores, doc);
  }

  /**
   * The sector view of `analise_margens` fails exactly when one of the 24 accounts
   * of the subsector table is missing. Otherwise its two results are the sums of the
   * subsector results of the first three and of the last nine definitions.
   */
  lemma AnaliseSetorial(tipo: string, doc: Documento)
    requires tipo != AnaliseSubsetorial
    ensures AnaliseMargens(tipo, Some(doc)).ContaAusente?
            <==> exists j :: 0 <= j < |Subsetores| && !Incluido(Subsetores[j], doc)
    ensures AnaliseMargens(tipo, Some(doc)).Grafico? ==>
      AnaliseMargens(tipo, Some(doc)).linhas[0].resultado == SomaResultados(Calcula(Subsetores[..3], doc))
      && AnaliseMargens(tipo, Some(doc)).linhas[1].resultado == SomaResultados(Calcula(Subsetores[3..], doc))
  {
    ConsolidaDefinidaSse(Subsetores, doc);
    if Consolida(Subsetores, doc).Some? {
      assert Vendas(Subsetores) == Subsetores[..3] && PosVendas(Subsetores) == Subsetores[3..];
      ConsolidaSomaSubsetores(Subsetores, doc);
    }
  }

  /**
   * When the sector view of `analise_margens` charts, each margin is its sector's
   * result over its sector's summed revenue (0 when that is 0), and the two entries
   * are the calculator run on one segment per sector.
   */
  lemma AnaliseSetorialMargens(tipo: string, doc: Documento)
    requires tipo != AnaliseSubsetorial
    ensures AnaliseMargens(tipo, Some(doc)).Grafico? ==>
      MargemDoSetor(AnaliseMargens(tipo, Some(doc)).linhas[0], Soma(doc, Receitas(Subsetores[..3])))
      && MargemDoSetor(AnaliseMargens(tipo, Some(doc)).linhas[1], Soma(doc, Receitas(Subsetores[3..])))
    ensures AnaliseMargens(tipo, Some(doc)).Grafico? ==>
      AnaliseMargens(tipo, Some(doc)).linhas == Calcula(SegmentosSinteticos, DocumentoSintetico(
        Soma(doc, Receitas(Subsetores[..3])).value, Soma(doc, Custos(Subsetores[..3])).value,
        Soma(doc, Receitas(Subsetores[3..])).value, Soma(doc, Custos(Subsetores[3..])).value))
  {
    var c := Consolida(Subsetores, doc);
    if c.Some? {
      assert AnaliseMargens(tipo, Some(doc)) == Grafico(c.value);
      assert Vendas(Subsetores) == Subsetores[..3] && PosVendas(Subsetores) == Subsetores[3..];
      ConsolidaMargens(Subsetores, doc);
      ConsolidaEhCalculaSintetico(Subsetores, doc);
    }
  }

  /**
   * `atualizar_grafico` given the outcome of the request: an empty figure when it
   * failed, otherwise the calculator on the table chosen by `tipo`.
   */
  function AtualizarGrafico(tipo: string, obtido: Option<Documento>): (ls: seq<Linha>)
    ensures obtido.None? ==> ls == []
    ensures |ls| <= if tipo == AnaliseSubsetorial then |Subsetores| else |SetoresDash|
  {
    match obtido
    case None => []
    case Some(doc) => Calcula(if tipo == AnaliseSubsetorial then Subsetores else SetoresDash, doc)
  }

  /** The Dash subsector view charts the calculator's selection of the subsector table. */
  lemma AtualizarGraficoSubsetorial(doc: Documento)
    ensures MostraSubsetoresIncluidos(AtualizarGrafico(AnaliseSubsetorial, Some(doc)), doc)
  {
    CalculaSeleciona(Subsetores, doc);
  }

  /**
   * The Dash sector view lists "Vendas" when its two accounts are found, then
   * "Pós-Vendas" when its two accounts are found, and nothing else.
   */
  lemma AtualizarGraficoSetorial(tipo: string, doc: Documento)
    requires tipo != AnaliseSubsetorial
    ensures AtualizarGrafico(tipo, Some(doc)) ==
      (if Incluido(SetoresDash[0], doc) then [LinhaDoSegmento(SetoresDash[0], doc)] else [])
      + (if Incluido(SetoresDash[1], doc) then [LinhaDoSegmento(SetoresDash[1], doc)] else [])
  {
    var t := SetoresDash;
    assert t[..1] == [t[0]] && t[..1][..0] == [];
  }

  // ---------------------------------------------------------------------------
  // The annual series.

  /** Why `analise_margens_ano` produced no chart, and in which month. */
  datatype Falha =
    | FalhaRequisicao(mes: int)   // the request failed: returns None
    | FalhaConta(mes: int)        // a sector `sum` met a missing account: raises

  /** `resultados_ano` and `margens_ano`: one `[Vendas, Pós-Vendas]` pair per month. */
  datatype SerieAnual = SerieAnual(resultados: seq<seq<real>>, margens: seq<seq<real>>)

  /** The month's two sector entries, when its document was obtained and is complete. */
  predicate MesCompleto(contas: seq<Segmento>, obter: (int, int) -> Option<Documento>, mes: int, ano: int)
  {
    obter(mes, ano).Some? && Consolida(contas, obter(mes, ano).value).Some?
  }

  /** `resultados` and `margens` are the month's `[Vendas, Pós-Vendas]` entries. */
  predicate ParDoMes(contas: seq<Segmento>, obter: (int, int) -> Option<Documento>, mes: int, ano: int,
                     resultados: seq<real>, margens: seq<real>)
  {
    MesCompleto(contas, obter, mes, ano)
    && var ls := Consolida(contas, obter(mes, ano).value).value;
    resultados == [ls[0].resultado, ls[1].resultado] && margens == [ls[0].margem, ls[1].margem]
  }

  /** The lists after months 1..n, or the first failure. */
  function Serie(contas: seq<Segmento>, obter: (int, int) -> Option<Documento>, ano: int, n: nat): (r: Result<SerieAnual, Falha>)
    ensures r.Success? ==> |r.value.resultados| == n && |r.value.margens| == n
    ensures r.Failure? ==> 1 <= r.error.mes <= n
    decreases n
  {
    if n == 0 then Success(SerieAnual([], []))
    else
      match Serie(contas, obter, ano, n - 1)
      case Failure(e) => Failure(e)
      case Success(s) =>
        match obter(n, ano)
        case None => Failure(FalhaRequisicao(n))
        case Some(doc) =>
          match Consolida(contas, doc)
          case None => Failure(FalhaConta(n))
          case Some(ls) =>
            Success(SerieAnual(s.resultados + [[ls[0].resultado, ls[1].resultado]],
                               s.margens + [[ls[0].margem, ls[1].margem]]))
  }

  /** A successful series has every month 1..n complete. */
  lemma {:induction false} SerieSucessoMeses(contas: seq<Segmento>, obter: (int, int) -> Option<Documento>, ano: int, n: nat)
    requires Serie(contas, obter, ano, n).Success?
    ensures forall m :: 1 <= m <= n ==> MesCompleto(contas, obter, m, ano)
    decreases n
  {
    if n > 0 {
      assert Serie(contas, obter, ano, n - 1).Success?;
      assert obter(n, ano).Some?;
      assert Consolida(contas, obter(n, ano).value).Some?;
      SerieSucessoMeses(contas, obter, ano, n - 1);
    }
  }

  /** With every month 1..n complete, the series succeeds. */
  lemma {:induction false} MesesSerieSucesso(contas: seq<Segmento>, obter: (int, int) -> Option<Documento>, ano: int, n: nat)
    requires forall m :: 1 <= m <= n ==> MesCompleto(contas, obter, m, ano)
    ensures Serie(contas, obter, ano, n).Success?
    decreases n
  {
    if n > 0 {
      MesesSerieSucesso(contas, obter, ano, n - 1);
      assert MesCompleto(contas, obter, n, ano);
    }
  }

  /** The series over months 1..n succeeds iff every one of those months is complete. */
  lemma SerieSucessoSse(contas: seq<Segmento>, obter: (int, int) -> Option<Documento>, ano: int, n: nat)
    ensures Serie(contas, obter, ano, n).Success? <==> forall m :: 1 <= m <= n ==> MesCompleto(contas, obter, m, ano)
  {
    if Serie(contas, obter, ano, n).Success? {
      SerieSucessoMeses(contas, obter, ano, n);
    }
    if forall m :: 1 <= m <= n ==> MesCompleto(contas, obter, m, ano) {
      MesesSerieSucesso(contas, obter, ano, n);
    }
  }

  /** A successful series is the one before it plus month n's pair. */
  lemma SeriePasso(contas: seq<Segmento>, obter: (int, int) -> Option<Documento>, ano: int, n: nat)
    requires n > 0 && Serie(contas, obter, ano, n).Success?
    ensures Serie(contas, obter, ano, n - 1).Success? && MesCompleto(contas, obter, n, ano)
    ensures var s := Serie(contas, obter, ano, n - 1).value;
      var ls := Consolida(contas, obter(n, ano).value).value;
      Serie(contas, obter, ano, n).value == SerieAnual(s.resultados + [[ls[0].resultado, ls[1].resultado]],
                                                       s.margens + [[ls[0].margem, ls[1].margem]])
  {
  }

  /**
   * A successful series holds exactly n pairs, month k's pair at position k - 1,
   * each the month's two sector entries.
   */
  lemma {:induction false} SerieCompleta(contas: seq<Segmento>, obter: (int, int) -> Option<Documento>, ano: int, n: nat)
    ensures Serie(contas, obter, ano, n).Success? ==>
      var s := Serie(contas, obter, ano, n).value;
      |s.resultados| == n && |s.margens| == n
      && forall k :: 0 <= k < n ==> ParDoMes(contas, obter, k + 1, ano, s.resultados[k], s.margens[k])
    decreases n
  {
    if n > 0 && Serie(contas, obter, ano, n).Success? {
      SeriePasso(contas, obter, ano, n);
      SerieCompleta(contas, obter, ano, n - 1);
      var s := Serie(contas, obter, ano, n - 1).value;
      var rs, ms := Serie(contas, obter, ano, n).value.resultados, Serie(contas, obter, ano, n).value.margens;
      assert ParDoMes(contas, obter, n, ano, rs[n - 1], ms[n - 1]);
      forall k | 0 <= k < n - 1 ensures ParDoMes(contas, obter, k + 1, ano, rs[k], ms[k]) {
        assert rs[k] == s.resultados[k] && ms[k] == s.margens[k];
      }
    }
  }

  /**
   * A failure names the first incomplete month: every earlier month is complete,
   * and the named month's request failed or its roll-up met a missing account.
   */
  lemma {:induction false} SeriePrimeiraFalha(contas: seq<Segmento>, obter: (int, int) -> Option<Documento>, ano: int, n: nat)
    requires Serie(contas, obter, ano, n).Failure?
    ensures var e := Serie(contas, obter, ano, n).error;
      1 <= e.mes <= n
      && (forall m :: 1 <= m < e.mes ==> MesCompleto(contas, obter, m, ano))
      && (e.FalhaRequisicao? ==> obter(e.mes, ano).None?)
      && (e.FalhaConta? ==> obter(e.mes, ano).Some? && Consolida(contas, obter(e.mes, ano).value).None?)
    decreases n
  {
    assert n > 0;
    var anterior := Serie(contas, obter, ano, n - 1);
    if anterior.Failure? {
      assert Serie(contas, obter, ano, n) == anterior;
      SeriePrimeiraFalha(contas, obter, ano, n - 1);
    } else {
      assert Serie(contas, obter, ano, n).error.mes == n;
      SerieSucessoMeses(contas, obter, ano, n - 1);
    }
  }

  /** Once a month fails, every longer series ends with that failure. */
  lemma {:induction false} SerieFalhaPermanece(contas: seq<Segmento>, obter: (int, int) -> Option<Documento>, ano: int, m: nat, n: nat)
    requires m <= n && Serie(contas, obter, ano, m).Failure?
    ensures Serie(contas, obter, ano, n) == Serie(contas, obter, ano, m)
    decreases n - m
  {
    if m < n {
      SerieFalhaPermanece(contas, obter, ano, m + 1, n);
    }
  }

  /**
   * The twelve-month loop of `analise_margens_ano`, stopping at the first failure.
   * The definitions table the loop rebuilds every month is the parameter `contas`
   * (the dashboard's is `Subsetores`).
   */
  method AnaliseMargensAno(ano: int, contas: seq<Segmento>, obter: (int, int) -> Option<Documento>)
    returns (r: Result<SerieAnual, Falha>)
    ensures r == Serie(contas, obter, ano, 12)
    ensures r.Success? ==> |r.value.resultados| == 12 && |r.value.margens| == 12
  {
    var margensAno: seq<seq<real>> := [];
    var resultadosAno: seq<seq<real>> := [];
    var i := 1;
    while i < 13
      invariant 1 <= i <= 13
      invariant Serie(contas, obter, ano, i - 1) == Success(SerieAnual(resultadosAno, margensAno))
    {
      var obtido := obter(i, ano);
      if obtido.None? {
        SerieFalhaPermanece(contas, obter, ano, i, 12);
        return Failure(FalhaRequisicao(i));
      }
      var setores := Consolida(contas, obtido.value);
      if setores.None? {
        SerieFalhaPermanece(contas, obter, ano, i, 12);
        return Failure(FalhaConta(i));
      }
      var ls := setores.value;
      resultadosAno := resultadosAno + [[ls[0].resultado, ls[1].resultado]];
      margensAno := margensAno + [[ls[0].margem, ls[1].margem]];
      assert Serie(contas, obter, ano, i) == Success(SerieAnual(resultadosAno, margensAno));
      i := i + 1;
    }
    SerieCompleta(contas, obter, ano, 12);
    r := Success(SerieAnual(resultadosAno, margensAno));
  }
}
