/**
 * The per-segment calculator `calcular_resultados_margens`: for each segment
 * definition whose revenue and cost accounts are both found, one name, one result
 * in thousands and one gross margin, in three parallel lists.
 */
module Margins {
  import opened Wrappers
  import opened Balances

  /** A segment definition: `{"nome": ..., "receita": ..., "custo": ...}`. */
  datatype Segmento = Segmento(nome: string, receita: string, custo: string)

  /** One entry of the three parallel output lists. */
  datatype Linha = Linha(nome: string, resultado: real, margem: real)

  /**
   * Result and margin of revenue and cost movements: `resultado = -receita - custo`
   * is reported in thousands, and the margin is `-resultado / receita * 100`, or 0
   * when the revenue movement is 0.
   */
  function LinhaDe(nome: string, receita: real, custo: real): (l: Linha)
    ensures l.nome == nome
    ensures -(l.resultado * 1000.0) - custo == receita
    ensures receita != 0.0 ==> l.margem * receita == (receita + custo) * 100.0
    ensures receita != 0.0 ==> l.margem == -(l.resultado * 1000.0) / receita * 100.0
    ensures receita == 0.0 ==> l.margem == 0.0
  {
    var resultado := -receita - custo;
    var margem := if receita != 0.0 then -resultado / receita * 100.0 else 0.0;
    Linha(nome, resultado / 1000.0, margem)
  }

  /** Both accounts of the segment are present in the document. */
  predicate Incluido(s: Segmento, doc: Documento)
  {
    ValorConta(doc, s.receita).Some? && ValorConta(doc, s.custo).Some?
  }

  /** The entry of an included segment. */
  function LinhaDoSegmento(s: Segmento, doc: Documento): Linha
    requires Incluido(s, doc)
  {
    LinhaDe(s.nome, ValorConta(doc, s.receita).value, ValorConta(doc, s.custo).value)
  }

  /** The lists `calcular_resultados_margens` has built after the segments `contas`. */
  function Calcula(contas: seq<Segmento>, doc: Documento): (ls: seq<Linha>)
    ensures |ls| <= |contas|
    decreases |contas|
  {
    if contas == [] then []
    else
      var anteriores := Calcula(contas[..|contas| - 1], doc);
      var s := contas[|contas| - 1];
      if Incluido(s, doc) then anteriores + [LinhaDoSegmento(s, doc)] else anteriores
  }

  /** Positions, in increasing order, of the segments whose accounts are both found. */
  function Incluidos(contas: seq<Segmento>, doc: Documento): seq<nat>
    decreases |contas|
  {
    if contas == [] then []
    else
      var anteriores := Incluidos(contas[..|contas| - 1], doc);
      if Incluido(contas[|contas| - 1], doc) then anteriores + [|contas| - 1] else anteriores
  }

  /** Every listed position is a valid, included position, and positions increase. */
  lemma {:induction false} IncluidosCrescentes(contas: seq<Segmento>, doc: Documento)
    ensures forall k :: 0 <= k < |Incluidos(contas, doc)| ==>
      Incluidos(contas, doc)[k] < |contas| && Incluido(contas[Incluidos(contas, doc)[k]], doc)
    ensures forall k1, k2 :: 0 <= k1 < k2 < |Incluidos(contas, doc)| ==>
      Incluidos(contas, doc)[k1] < Incluidos(contas, doc)[k2]
    decreases |contas|
  {
    if contas != [] {
      var n := |contas| - 1;
      var ini := contas[..n];
      IncluidosCrescentes(ini, doc);
      var idx := Incluidos(ini, doc);
      assert forall k :: 0 <= k < |idx| ==> contas[idx[k]] == ini[idx[k]];
    }
  }

  /** A position is listed iff its segment is included. */
  lemma {:induction false} IncluidosExatos(contas: seq<Segmento>, doc: Documento)
    ensures forall j :: 0 <= j < |contas| ==> (Incluido(contas[j], doc) <==> j in Incluidos(contas, doc))
    decreases |contas|
  {
    if contas != [] {
      var n := |contas| - 1;
      var ini := contas[..n];
      IncluidosExatos(ini, doc);
      IncluidosCrescentes(ini, doc);
      assert forall j :: 0 <= j < n ==> contas[j] == ini[j];
    }
  }

  /** Entry k of the output belongs to the k-th included segment. */
  lemma {:induction false} CalculaNosIncluidos(contas: seq<Segmento>, doc: Documento)
    ensures |Calcula(contas, doc)| == |Incluidos(contas, doc)|
    ensures forall k :: 0 <= k < |Incluidos(contas, doc)| ==>
      Incluidos(contas, doc)[k] < |contas| && Incluido(contas[Incluidos(contas, doc)[k]], doc)
      && Calcula(contas, doc)[k] == LinhaDoSegmento(contas[Incluidos(contas, doc)[k]], doc)
    decreases |contas|
  {
    IncluidosCrescentes(contas, doc);
    if contas != [] {
      var n := |contas| - 1;
      var ini := contas[..n];
      CalculaNosIncluidos(ini, doc);
      IncluidosCrescentes(ini, doc);
      var idx := Incluidos(ini, doc);
      assert forall k :: 0 <= k < |idx| ==> contas[idx[k]] == ini[idx[k]];
    }
  }

  /**
   * The output keeps exactly the segments whose two accounts are found, in input
   * order: entry k belongs to segment `Incluidos[k]`, the positions increase, and a
   * position is listed iff its segment is included.
   */
  lemma {:induction false} CalculaSeleciona(contas: seq<Segmento>, doc: Documento)
    ensures |Calcula(contas, doc)| == |Incluidos(contas, doc)|
    ensures forall k :: 0 <= k < |Incluidos(contas, doc)| ==>
      Incluidos(contas, doc)[k] < |contas| && Incluido(contas[Incluidos(contas, doc)[k]], doc)
      && Calcula(contas, doc)[k] == LinhaDoSegmento(contas[Incluidos(contas, doc)[k]], doc)
    ensures forall k1, k2 :: 0 <= k1 < k2 < |Incluidos(contas, doc)| ==>
      Incluidos(contas, doc)[k1] < Incluidos(contas, doc)[k2]
    ensures forall j :: 0 <= j < |contas| ==> (Incluido(contas[j], doc) <==> j in Incluidos(contas, doc))
  {
    IncluidosCrescentes(contas, doc);
    IncluidosExatos(contas, doc);
    CalculaNosIncluidos(contas, doc);
  }

  /** When every segment is included, entry k is segment k. */
  lemma {:induction false} CalculaTodosIncluidos(contas: seq<Segmento>, doc: Documento)
    requires forall j :: 0 <= j < |contas| ==> Incluido(contas[j], doc)
    ensures |Calcula(contas, doc)| == |contas|
    ensures forall k :: 0 <= k < |contas| ==> Calcula(contas, doc)[k] == LinhaDoSegmento(contas[k], doc)
    decreases |contas|
  {
    if contas != [] {
      var n := |contas| - 1;
      CalculaTodosIncluidos(contas[..n], doc);
    }
  }

  /** Definitions with no found account at all yield empty lists. */
  lemma {:induction false} CalculaNenhumIncluido(contas: seq<Segmento>, doc: Documento)
    requires forall j :: 0 <= j < |contas| ==> !Incluido(contas[j], doc)
    ensures Calcula(contas, doc) == []
    decreases |contas|
  {
    if contas != [] {
      CalculaNenhumIncluido(contas[..|contas| - 1], doc);
    }
  }

  /**
   * A worked case: revenue account "A" moves from 100 to 150 and cost account "B"
   * from 200 to 180, giving a result of -0.03 thousand and a margin of 60 %.
   */
  lemma ExemploUmSegmento()
    ensures Calcula([Segmento("S", "A", "B")], [Saldo("A", 100.0, 150.0), Saldo("B", 200.0, 180.0)])
            == [Linha("S", -0.03, 60.0)]
  {
    var doc := [Saldo("A", 100.0, 150.0), Saldo("B", 200.0, 180.0)];
    Arredonda2Centavos(50.0);
    Arredonda2Centavos(-20.0);
    assert ValorConta(doc, "B") == ValorConta(doc[1..], "B");
    var s := [Segmento("S", "A", "B")];
    assert s[..0] == [];
  }

  /** The loop of `calcular_resultados_margens`, appending to three lists. */
  method CalcularResultadosMargens(contas: seq<Segmento>, doc: Documento)
    returns (nomes: seq<string>, resultados: seq<real>, margens: seq<real>)
    ensures |nomes| == |resultados| == |margens| == |Calcula(contas, doc)| <= |contas|
    ensures forall k :: 0 <= k < |nomes| ==>
      nomes[k] == Calcula(contas, doc)[k].nome
      && resultados[k] == Calcula(contas, doc)[k].resultado
      && margens[k] == Calcula(contas, doc)[k].margem
  {
    resultados, margens, nomes := [], [], [];
    var i := 0;
    while i < |contas|
      invariant 0 <= i <= |contas|
      invariant |nomes| == |resultados| == |margens| == |Calcula(contas[..i], doc)|
      invariant forall k :: 0 <= k < |nomes| ==>
        nomes[k] == Calcula(contas[..i], doc)[k].nome
        && resultados[k] == Calcula(contas[..i], doc)[k].resultado
        && margens[k] == Calcula(contas[..i], doc)[k].margem
    {
      var conta := contas[i];
      assert contas[..i + 1][..i] == contas[..i];
      var valorReceita := ObterValorConta(doc, conta.receita);
      var valorCusto := ObterValorConta(doc, conta.custo);
      if valorReceita.Some? && valorCusto.Some? {
        var resultado := -valorReceita.value - valorCusto.value;
        var margem := if valorReceita.value != 0.0 then -resultado / valorReceita.value * 100.0 else 0.0;
        nomes := nomes + [conta.nome];
        resultados := resultados + [resultado / 1000.0];
        margens := margens + [margem];
      }
      i := i + 1;
    }
    assert contas[..|contas|] == contas;
  }
}
