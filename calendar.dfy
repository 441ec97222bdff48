/**
 * The calendar rule `ultimo_dia_mes` and the two date strings that bound the
 * balance inquiry (`Dtini` and `Dtfin` of the request).
 */
module Calendar {
  import opened Wrappers

  /** Gregorian leap year. Python's `%` with a positive divisor agrees with Dafny's. */
  predicate Bissexto(ano: int) {
    ano % 4 == 0 && (ano % 100 != 0 || ano % 400 == 0)
  }

  /**
   * Number of days of month `mes` of year `ano`. A month outside 1..12 is not
   * rejected: it falls into the February branch.
   */
  function UltimoDiaMes(mes: int, ano: int): (dia: int)
    ensures 28 <= dia <= 31
    ensures 1 <= mes <= 12 && mes != 2 ==> dia >= 30
    ensures dia == 31 <==> mes in {1, 3, 5, 7, 8, 10, 12}
    ensures mes in {4, 6, 9, 11} ==> dia == 30
    ensures mes !in {1, 3, 4, 5, 6, 7, 8, 9, 10, 11, 12} ==> dia == (if Bissexto(ano) then 29 else 28)
    ensures dia == 29 <==> mes !in {1, 3, 4, 5, 6, 7, 8, 9, 10, 11, 12} && Bissexto(ano)
  {
    if mes in {1, 3, 5, 7, 8, 10, 12} then 31
    else if mes in {4, 6, 9, 11} then 30
    else if Bissexto(ano) then 29
    else 28
  }

  /** Days from January 1 through the end of month `mes` (an independent reference). */
  function DiasAteFimDoMes(mes: nat, ano: int): int
  {
    if mes == 0 then 0 else DiasAteFimDoMes(mes - 1, ano) + UltimoDiaMes(mes, ano)
  }

  /** The twelve month lengths add up to the length of the Gregorian year. */
  lemma {:induction false} DiasNoAno(ano: int)
    ensures DiasAteFimDoMes(12, ano) == if Bissexto(ano) then 366 else 365
  {
    var fev := UltimoDiaMes(2, ano);
    assert DiasAteFimDoMes(1, ano) == 31;
    assert DiasAteFimDoMes(2, ano) == 31 + fev;
    assert DiasAteFimDoMes(3, ano) == 62 + fev;
    assert DiasAteFimDoMes(4, ano) == 92 + fev;
    assert DiasAteFimDoMes(5, ano) == 123 + fev;
    assert DiasAteFimDoMes(6, ano) == 153 + fev;
    assert DiasAteFimDoMes(7, ano) == 184 + fev;
    assert DiasAteFimDoMes(8, ano) == 215 + fev;
    assert DiasAteFimDoMes(9, ano) == 245 + fev;
    assert DiasAteFimDoMes(10, ano) == 276 + fev;
    assert DiasAteFimDoMes(11, ano) == 306 + fev;
  }

  // ---------------------------------------------------------------------------
  // Decimal text of integers: Python's `str(n)` and `format(n, "02d")`.

  predicate EhDigito(c: char) { '0' <= c <= '9' }

  predicate SoDigitos(s: string) {
    forall i :: 0 <= i < |s| ==> EhDigito(s[i])
  }

  function Digito(d: nat): (c: char)
    requires d < 10
    ensures EhDigito(c) && ValorDigito(c) == d
  {
    ((('0' as int) + d) as char)
  }

  function ValorDigito(c: char): (d: nat)
    requires EhDigito(c)
    ensures d < 10
  {
    (c as int) - ('0' as int)
  }

  /** Decimal digits of a natural number, most significant first, no leading zero. */
  function Digitos(n: nat): (s: string)
    ensures 1 <= |s| && SoDigitos(s)
    decreases n
  {
    if n < 10 then [Digito(n)] else Digitos(n / 10) + [Digito(n % 10)]
  }

  /** Reads a string of decimal digits back as a number. */
  function LerDigitos(s: string): nat
    requires SoDigitos(s)
    decreases |s|
  {
    if s == [] then 0 else LerDigitos(s[..|s| - 1]) * 10 + ValorDigito(s[|s| - 1])
  }

  lemma {:induction false} LerDigitosDeDigitos(n: nat)
    ensures LerDigitos(Digitos(n)) == n
    decreases n
  {
    var s := Digitos(n);
    if n >= 10 {
      LerDigitosDeDigitos(n / 10);
      assert s[..|s| - 1] == Digitos(n / 10);
    }
  }

  lemma {:induction false} TamanhoDigitos(n: nat)
    ensures n < 10 ==> |Digitos(n)| == 1
    ensures 10 <= n < 100 ==> |Digitos(n)| == 2
    ensures 100 <= n < 1000 ==> |Digitos(n)| == 3
    ensures 1000 <= n < 10000 ==> |Digitos(n)| == 4
    decreases n
  {
    if n >= 10 {
      TamanhoDigitos(n / 10);
    }
  }

  /** `str(n)` for a Python int. */
  function Texto(n: int): string
  {
    if n < 0 then "-" + Digitos(-n) else Digitos(n)
  }

  /** `format(n, "02d")`: a sign, then the digits zero-padded to a total width of two. */
  function Texto02(n: int): string
  {
    if 0 <= n < 10 then "0" + Digitos(n) else Texto(n)
  }

  /** Reads an optional minus sign followed by digits. */
  function LerInteiro(s: string): Option<int>
  {
    if |s| > 0 && s[0] == '-' && SoDigitos(s[1..]) && |s| > 1 then Some(-(LerDigitos(s[1..]) as int))
    else if |s| > 0 && SoDigitos(s) then Some(LerDigitos(s))
    else None
  }

  /** Both integer renderings read back as the integer they render. */
  lemma LerTexto(n: int)
    ensures LerInteiro(Texto(n)) == Some(n)
    ensures LerInteiro(Texto02(n)) == Some(n)
  {
    if n < 0 {
      LerDigitosDeDigitos(-n);
      assert Texto(n)[1..] == Digitos(-n);
    } else {
      LerDigitosDeDigitos(n);
      if n < 10 {
        var s := Texto02(n);
        assert s == ['0', Digito(n)];
        assert s[..1][..0] == [];
        assert LerDigitos(s[..1]) == 0;
        assert SoDigitos(s) && LerDigitos(s) == n;
      }
    }
  }

  // ---------------------------------------------------------------------------
  // The inquiry period.

  datatype Data = Data(ano: int, mes: int, dia: int)

  datatype Periodo = Periodo(dtini: string, dtfin: string)

  /**
   * `{ano}-{mes:02d}-01` and `{ano}-{mes:02d}-{ultimo_dia}`: the two bounds share
   * everything but their last two characters, the day field; the first bound's is
   * "01", the second's is the two digits of the month's last day.
   */
  function PeriodoConsulta(mes: int, ano: int): (p: Periodo)
    ensures |p.dtini| == |p.dtfin| >= 2
    ensures p.dtini[..|p.dtini| - 2] == p.dtfin[..|p.dtfin| - 2]
    ensures p.dtini[|p.dtini| - 2..] == "01"
    ensures SoDigitos(p.dtfin[|p.dtfin| - 2..]) && LerDigitos(p.dtfin[|p.dtfin| - 2..]) == UltimoDiaMes(mes, ano)
  {
    var prefixo := Texto(ano) + "-" + Texto02(mes) + "-";
    var dia := UltimoDiaMes(mes, ano);
    TamanhoDigitos(dia);
    LerDigitosDeDigitos(dia);
    assert (prefixo + "01")[|prefixo|..] == "01";
    assert (prefixo + Texto(dia))[|prefixo|..] == Digitos(dia);
    Periodo(prefixo + "01", prefixo + Texto(dia))
  }

  /** Reads a `YYYY-MM-DD` date. */
  function LerData(s: string): Option<Data>
  {
    if |s| == 10 && s[4] == '-' && s[7] == '-'
       && SoDigitos(s[..4]) && SoDigitos(s[5..7]) && SoDigitos(s[8..])
    then Some(Data(LerDigitos(s[..4]), LerDigitos(s[5..7]), LerDigitos(s[8..])))
    else None
  }

  /** A date assembled from a four-digit year, a two-digit month and a two-digit day reads back field by field. */
  lemma LerDataMontada(a: string, m: string, d: string)
    requires |a| == 4 && |m| == 2 && |d| == 2
    requires SoDigitos(a) && SoDigitos(m) && SoDigitos(d)
    ensures LerData(a + "-" + m + "-" + d) == Some(Data(LerDigitos(a), LerDigitos(m), LerDigitos(d)))
  {
    var s := a + "-" + m + "-" + d;
    assert s[..4] == a && s[5..7] == m && s[8..] == d;
  }

  /** `Texto02` of a real month is its two digits. */
  lemma Texto02DoMes(mes: int)
    requires 1 <= mes <= 12
    ensures |Texto02(mes)| == 2 && SoDigitos(Texto02(mes)) && LerDigitos(Texto02(mes)) == mes
  {
    TamanhoDigitos(mes);
    LerDigitosDeDigitos(mes);
    if mes < 10 {
      var m := Texto02(mes);
      assert m == ['0', Digito(mes)];
      assert m[..1][..0] == [];
    }
  }

  /**
   * For a real month of a four-digit year, both bounds are well-formed dates in that
   * month: the first starts it on day 1, the second ends it on its last day.
   */
  lemma PeriodoCobreOMes(mes: int, ano: int)
    requires 1 <= mes <= 12 && 1000 <= ano <= 9999
    ensures LerData(PeriodoConsulta(mes, ano).dtini) == Some(Data(ano, mes, 1))
    ensures LerData(PeriodoConsulta(mes, ano).dtfin) == Some(Data(ano, mes, UltimoDiaMes(mes, ano)))
  {
    var p := PeriodoConsulta(mes, ano);
    var a, m, d := Digitos(ano), Texto02(mes), UltimoDiaMes(mes, ano);
    TamanhoDigitos(ano);
    TamanhoDigitos(d);
    LerDigitosDeDigitos(ano);
    LerDigitosDeDigitos(d);
    Texto02DoMes(mes);
    assert LerDigitos("01") == 1 by {
      assert "01"[..1] == "0";
      assert "01"[..1][..0] == [];
    }
    assert p.dtini == a + "-" + m + "-" + "01";
    LerDataMontada(a, m, "01");
    assert p.dtfin == a + "-" + m + "-" + Digitos(d);
    LerDataMontada(a, m, Digitos(d));
  }
}
