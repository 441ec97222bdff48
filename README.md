# Sales-margin dashboards: balance lookup and margin calculation

The repository's three dashboards (`dashboards_streamlit.py`, `teste.py`,
`dashboards_dash.py`) send a balance inquiry for one month to an ERP web
service. Each gets back a list of ledger items, each with an account id, an
opening balance (`SaldoInicial`) and a closing balance (`SaldoFinal`). From
that list they compute a result and a gross margin for each business segment.
This project models that computation in Dafny and proves what it promises:

- `calendar.dfy` (module `Calendar`): `ultimo_dia_mes`, the Gregorian month
  length. It also covers the two date strings `Dtini = {ano}-{mes:02d}-01` and
  `Dtfin = {ano}-{mes:02d}-{ultimo_dia}` that bound the request. The integer
  renderings `str(n)` and `format(n, "02d")` are written out, each with a
  reader that inverts it.
- `balances.dfy` (module `Balances`): the parsed document is a sequence of
  `Saldo(conta, inicial, final)` items. `obter_valor_conta` is a linear scan
  with early return (`ObterValorConta`), proved against the function
  `ValorConta`. `np.round(x, 2)` is the round-half-to-even of `x * 100`,
  scaled back (`Arredonda2`): a value halfway between two cents goes to
  the even one.
- `margins.dfy` (module `Margins`): `calcular_resultados_margens`, the loop
  that appends to the three parallel lists `nomes`, `resultados` and
  `margens` (`CalcularResultadosMargens`). It is proved against the function
  `Calcula`, and the lemmas about `Calcula` give selection, order and the
  formulas.
- `sectors.dfy` (module `Sectors`): the sector roll-up of `analise_margens`.
  It sums the movements of `contas[:3]` (Vendas) and `contas[3:]`
  (Pós-Vendas) with Python's `sum`, then applies the result and margin
  formulas once per sector.
- `dashboards.dfy` (module `Dashboards`): the fixed definition tables,
  `analise_margens`, the table choice of Dash's `atualizar_grafico`, and the
  twelve-month loop `analise_margens_ano` (`AnaliseMargensAno`, proved against
  `Serie`).

The three files contain the same `ultimo_dia_mes`, request dates,
`obter_valor_conta` and `calcular_resultados_margens`, line for line. Each is
modelled once. The copies:

- `ultimo_dia_mes`: dashboards_streamlit.py:9-15, teste.py:10-16 and
  dashboards_dash.py:9-15.
- The request dates: dashboards_streamlit.py:19,30-31, teste.py:20,31-32 and
  dashboards_dash.py:19,30-31.
- `obter_valor_conta`: dashboards_streamlit.py:110-116, teste.py:112-118 and
  dashboards_dash.py:62-68.
- `calcular_resultados_margens`: dashboards_streamlit.py:49-60,
  teste.py:50-61 and dashboards_dash.py:48-59.

The sector roll-up appears in dashboards_streamlit.py:144-162 and in
teste.py:146-168. The teste.py copy also builds a `contas_setorial` table that
it never uses. It holds the summed amounts where the calculator expects
account ids, so passing it to `calcular_resultados_margens` would find no
account and chart nothing. `ConsolidaEhCalculaSintetico` proves that the
calculator, run on one definition per sector over a document whose four
items carry the sums, gives the roll-up. The Dash dashboard has no
roll-up: its sector view runs the calculator on two fixed definitions
(dashboards_dash.py:130-135).

Amounts are exact `real`s. The request is an outside call, so its outcome is
an input: `Option<Documento>`. It is `None` when the status is not 200, or when
the `Xml_retorno` element is absent or has no text. The cases where the
request raises instead are left out (see below).
The annual loop takes it as a function `(mes, ano) -> Option<Documento>`.
Python's `sum` raises a `TypeError` when a lookup returns `None`. The model
represents that case as a separate outcome (`ContaAusente`, `FalhaConta`).

The code does not validate its inputs, and the model follows it:

- A month outside 1..12 is not rejected. It gets February's length.
- The annual series always covers months 1..12.
- A missing account in a sector sum is an error, not an excluded group.

## Model

| member | source | states |
|---|---|---|
| `Calendar.UltimoDiaMes` | dashboards_streamlit.py:9-15 | Always 28..31. 31 exactly for months 1, 3, 5, 7, 8, 10, 12. 30 for months 4, 6, 9, 11. Any other month, February or one outside 1..12, gets 29 in a Gregorian leap year and 28 otherwise. |
| `Calendar.DiasNoAno` | teste.py:10-16 | The twelve month lengths add up to 366 in a leap year and 365 otherwise. This is an independent check of the leap rule. |
| `Calendar.LerDigitosDeDigitos` | dashboards_dash.py:31 | Reading back the decimal digits of a natural number gives the number. |
| `Calendar.LerTexto` | teste.py:31-32 | Reading back `str(n)` and the `02d` zero-padded rendering gives `n`, for every integer, negatives included. |
| `Calendar.Texto02DoMes` | dashboards_dash.py:30 | For months 1..12, `{mes:02d}` is exactly two digits that read back as the month. |
| `Calendar.PeriodoConsulta` | dashboards_streamlit.py:30-31 | `Dtini` and `Dtfin` differ only in their last two characters, the day field. `Dtini`'s is "01". `Dtfin`'s is two digits that read back as `ultimo_dia_mes(mes, ano)`. |
| `Calendar.PeriodoCobreOMes` | dashboards_streamlit.py:30-31 | For a month 1..12 and a four-digit year, `Dtini` reads as (ano, mes, 1) and `Dtfin` as (ano, mes, ultimo_dia_mes(mes, ano)). Both are `YYYY-MM-DD` dates of the same month. |
| `Balances.ArredondaMeioPar` | dashboards_streamlit.py:115 | The integer that `np.round` picks is at most 1/2 away from its argument. A tie goes to the even neighbour. An integer argument is unchanged. |
| `Balances.Arredonda2` | teste.py:117 | Rounding to 2 decimals gives a whole number of cents at most 0.005 away from the argument. An argument exactly halfway between two cents goes to the even cent. |
| `Balances.Arredonda2Centavos` | dashboards_dash.py:67 | Rounding leaves a cent value unchanged, so rounding twice is rounding once. |
| `Balances.ValorConta` | dashboards_dash.py:62-68 | A value the lookup returns is a whole number of cents. |
| `Balances.ValorContaPrimeira` | teste.py:112-118 | The lookup is `None` exactly when no item has the id. Otherwise it is the rounded `SaldoFinal - SaldoInicial` of the first item with that id. |
| `Balances.ObterValorConta` | dashboards_streamlit.py:110-116 | The scan with early return gives `None` iff no item matches. Otherwise it gives the rounded movement of the first matching item. It equals `ValorConta`. |
| `Margins.LinhaDe` | dashboards_streamlit.py:55-59 | Keeps the name. Revenue is recovered as `-resultado*1000 - custo`. For nonzero revenue, `margem * receita == (receita + custo) * 100`, i.e. `margem == -(resultado*1000)/receita*100`. For zero revenue the margin is exactly 0. |
| `Margins.Calcula` | dashboards_dash.py:48-59 | The output has at most as many entries as there are segment definitions. |
| `Margins.CalculaSeleciona` | teste.py:50-61 | Entry k belongs to the k-th segment whose revenue and cost lookups both succeed. The chosen positions strictly increase, so input order is kept. A segment appears iff both lookups succeed. |
| `Margins.CalculaTodosIncluidos` | dashboards_dash.py:53-58 | When every lookup succeeds, the output has one entry per definition, at the same position. |
| `Margins.CalculaNenhumIncluido` | teste.py:50-61 | When no segment has both accounts, the lists are empty. |
| `Margins.ExemploUmSegmento` | dashboards_streamlit.py:55-59 | Worked case: movements +50 (revenue) and -20 (cost) give result -0.03 thousand and margin 60. |
| `Margins.CalcularResultadosMargens` | dashboards_streamlit.py:49-60 | The three lists have equal length, at most `len(contas)`. At every position they hold the name, result and margin of `Calcula`'s entry there. |
| `Sectors.Soma` | dashboards_streamlit.py:144-156 | The generator `sum` has a value iff every id is found. The value is a whole number of cents. |
| `Sectors.LinhaSetor` | teste.py:166-168 | The sector formulas `(-r - c)/1000` and `(r + c)/r*100` (0 when r is 0) equal the per-segment formula `LinhaDe`. |
| `Sectors.Consolida` | teste.py:146-168 | A roll-up with a value has exactly two entries, named "Vendas" then "Pós-Vendas". |
| `Sectors.ConsolidaDefinidaSse` | dashboards_streamlit.py:144-157 | The roll-up has a value iff every revenue and cost account of every definition is found. A single `None` makes it fail. |
| `Sectors.SomaResultadosDoGrupo` | teste.py:146-151 | For a group whose accounts are all found, the per-segment results add up to `(-Σreceita - Σcusto)/1000`. |
| `Sectors.ConsolidaSomaSubsetores` | dashboards_streamlit.py:144-162 | The Vendas result is the sum of the subsector results of `contas[:3]`. The Pós-Vendas result is the sum of those of `contas[3:]`. |
| `Sectors.ConsolidaMargens` | teste.py:167-168 | Each sector margin is `-resultado*1000` over that sector's summed revenue, or 0 when that sum is 0. |
| `Sectors.ConsolidaEhCalculaSintetico` | teste.py:160-168 | The roll-up equals `calcular_resultados_margens` run on one synthetic segment per sector, whose movements are the sums. |
| `Dashboards.AnaliseMargens` | dashboards_streamlit.py:119-165 | A failed request gives no chart, and only then. The subsector view never fails on accounts and has at most 12 entries. The sector view, when it succeeds, has exactly Vendas then Pós-Vendas. |
| `Dashboards.AnaliseSubsetorialSeleciona` | dashboards_streamlit.py:139-141 | The subsector view always gives a chart. Entry k is the name, result and margin of the k-th subsector whose two accounts are found. Table order is kept. A subsector is shown iff both its accounts are found. |
| `Dashboards.AnaliseSetorial` | teste.py:121-171 | The sector view raises iff one of the 24 accounts of the subsector table is missing. Otherwise its results are the sums of the subsector results of the first 3 and the last 9 definitions. |
| `Dashboards.AnaliseSetorialMargens` | teste.py:160-168 | When the sector view charts, each margin is `-resultado*1000` over that sector's summed revenue, or 0 when that revenue is 0. The two entries equal the calculator run on one segment per sector. |
| `Dashboards.AtualizarGrafico` | dashboards_dash.py:109-135 | A failed request gives an empty figure. Otherwise the output has at most as many entries as the chosen table. |
| `Dashboards.AtualizarGraficoSubsetorial` | dashboards_dash.py:114-135 | The Dash subsector view charts exactly the subsectors whose two accounts are found, in table order, each with its name, result and margin. |
| `Dashboards.AtualizarGraficoSetorial` | dashboards_dash.py:130-135 | The Dash sector view has the "Vendas" entry iff its two accounts are found, then the "Pós-Vendas" entry iff its two accounts are found, and nothing else. |
| `Dashboards.Serie` | dashboards_streamlit.py:170-209 | The lists after months 1..n. A success holds n result pairs and n margin pairs. A failure names a month in 1..n. |
| `Dashboards.SerieSucessoSse` | dashboards_streamlit.py:170-173 | The series over months 1..n succeeds iff every month in 1..n is fetched and rolls up. |
| `Dashboards.SerieCompleta` | dashboards_streamlit.py:170-209 | A successful series over months 1..n has exactly n result pairs and n margin pairs. The pair at position k is month k+1's `[Vendas, Pós-Vendas]` entries. |
| `Dashboards.SeriePrimeiraFalha` | dashboards_streamlit.py:170-173 | A failure names a month in 1..n. Every earlier month is complete. That month's fetch failed (FalhaRequisicao) or its roll-up met a missing account (FalhaConta). |
| `Dashboards.SerieFalhaPermanece` | dashboards_streamlit.py:171-173 | Once a month fails, the loop stops: every longer series ends with the same failure. |
| `Dashboards.AnaliseMargensAno` | dashboards_streamlit.py:167-212 | The loop over months 1..12 returns `Serie(…, 12)`: the first failure, or exactly 12 result pairs and 12 margin pairs. |

## Left out

- The SOAP transport is not modelled: `requests.post`, the fixed URL, the
  credentials, `Empresa_codigo`, the status check and `st.error`. It is
  network I/O. Its outcome is a parameter (`Option<Documento>`).
- The XML parsing is not modelled (`ET.fromstring`, the namespaced `find`,
  `findall(".//SDT_SaldoContabilItem")`). It is a foreign library. The
  document is given already parsed. A status-200 response whose content or
  `Xml_retorno` text is not well-formed XML, or that lacks the `Body` or the
  response element, makes the request raise instead of returning `None`
  (dashboards_streamlit.py:38-44). That case is not represented. The
  source also raises when a scan reaches an item without `ContaIDNivel`, or
  when the matching item lacks `SaldoInicial` or `SaldoFinal`
  (dashboards_streamlit.py:112-114); those cases are not represented either.
- `float()` parsing of the balance strings and IEEE-754 arithmetic are not
  modelled. Balances are exact reals. The rounding is numpy's round-half-even
  algorithm on exact values, so representation error is not captured.
- Charts, titles and layout are not modelled: `criar_grafico`,
  `criar_grafico_anual`, the Dash layout and the chart re-created on every
  iteration of the annual loop. They are presentation only.
- `calcular_dados_mensais_por_setor` (teste.py:173-190) is not modelled. It
  indexes a parsed XML element as if it were a table and always requests
  month 1, so it cannot run as written.
- Multi-branch consolidation, timeouts, cancellation and parallel fetching are
  not modelled, because the code has none of them. The branch is a fixed
  constant in every file.
- Dashboards.AnaliseMargensAno: takes the definitions table as a parameter
  instead of rebuilding the fixed twelve-entry table inside the loop, to keep
  the proof small. The dashboard's table is `Dashboards.Subsetores`, which
  `AnaliseMargens` uses directly.
