/**
 * The residual-table extractor of a CFD solver log (leitura_outputlog.py).
 *
 * The script reads the log line by line. It waits for the first line whose
 * stripped text starts with `iter`, takes the column names from that line
 * (all whitespace tokens but the last) and raises `flag`. From then on, every
 * line whose raw text ends in a digit (optionally followed by one final
 * newline, the meaning of `\d$`) is collected as the line's tokens minus the
 * last two. The collected rows and the column names then become a table.
 *
 * The file is given as the sequence of its lines, each with its newline as
 * Python's file iteration yields it.
 */
module LeituraOutputLog {
  import opened Common
  import opened Ascii

  /** The script's variables: `flag`, `colunas` (None while unbound) and `dados`. */
  datatype Estado = Estado(flag: bool, colunas: Option<seq<string>>, dados: seq<seq<string>>)

  const Inicial := Estado(false, None, [])

  /** `linha.strip().startswith('iter')`. */
  predicate EhCabecalho(linha: string) {
    var t := Strip(linha);
    |t| >= 4 && t[0] == 'i' && t[1] == 't' && t[2] == 'e' && t[3] == 'r'
  }

  /** `re.search('\d$', linha)`: a digit at the very end, or just before a final newline. */
  predicate TerminaEmDigito(linha: string) {
    || (|linha| >= 1 && IsDigit(linha[|linha| - 1]))
    || (|linha| >= 2 && linha[|linha| - 1] == '\n' && IsDigit(linha[|linha| - 2]))
  }

  /** `linha.strip().split()[0:-1]`: the header's tokens without the last one. */
  function Colunas(linha: string): seq<string> {
    DropLast(Split(Strip(linha)), 1)
  }

  /** `linha.strip().split()[0:-2]`: a data line's tokens without the last two. */
  function Linha(linha: string): seq<string> {
    DropLast(Split(Strip(linha)), 2)
  }

  /** One iteration of the loop body. */
  function Passo(e: Estado, linha: string): (r: Estado)
    ensures r.flag <==> e.flag || EhCabecalho(linha)
    ensures e.flag ==> r.colunas == e.colunas
    ensures !e.flag && EhCabecalho(linha) ==> r.colunas == Some(Colunas(linha))
    ensures !r.flag ==> r == e
    ensures r.dados == e.dados || r.dados == e.dados + [Linha(linha)]
    ensures |r.dados| == |e.dados| + 1 <==> r.flag && TerminaEmDigito(linha)
  {
    var e' := if EhCabecalho(linha) && !e.flag then e.(flag := true, colunas := Some(Colunas(linha))) else e;
    if e'.flag && TerminaEmDigito(linha) then e'.(dados := e'.dados + [Linha(linha)]) else e'
  }

  /** The state after the loop has run over `linhas`, in file order. */
  function Varrer(linhas: seq<string>): Estado {
    if linhas == [] then Inicial
    else Passo(Varrer(linhas[..|linhas| - 1]), linhas[|linhas| - 1])
  }

  /** The loop of lines 11-16, as the script runs it. */
  method Ler(linhas: seq<string>) returns (flag: bool, colunas: Option<seq<string>>, dados: seq<seq<string>>)
    ensures Estado(flag, colunas, dados) == Varrer(linhas)
    ensures flag <==> PrimeiroCabecalho(linhas).Some?
    ensures match PrimeiroCabecalho(linhas)
      case None => colunas == None && dados == []
      case Some(h) => colunas == Some(Colunas(linhas[h])) && dados == Coletadas(linhas[h..])
  {
    flag, colunas, dados := false, None, [];
    var i := 0;
    while i < |linhas|
      invariant 0 <= i <= |linhas|
      invariant Estado(flag, colunas, dados) == Varrer(linhas[..i])
    {
      var linha := linhas[i];
      if EhCabecalho(linha) && !flag {
        colunas := Some(Colunas(linha));
        flag := true;
      }
      if flag && TerminaEmDigito(linha) {
        dados := dados + [Linha(linha)];
      }
      assert linhas[..i + 1][..i] == linhas[..i];
      i := i + 1;
    }
    assert linhas[..i] == linhas;
    VarrerCaracterizado(linhas);
  }

  // ---------------------------------------------------------------------
  // A reference description of the scan, written from the front of the file

  /** Index of the first header line, if any. */
  function PrimeiroCabecalho(linhas: seq<string>): (r: Option<nat>)
    ensures r.Some? ==> r.value < |linhas| && EhCabecalho(linhas[r.value])
    ensures r.Some? ==> forall j :: 0 <= j < r.value ==> !EhCabecalho(linhas[j])
    ensures r.None? ==> forall j :: 0 <= j < |linhas| ==> !EhCabecalho(linhas[j])
  {
    if linhas == [] then None
    else if EhCabecalho(linhas[0]) then Some(0)
    else match PrimeiroCabecalho(linhas[1..])
      case None => None
      case Some(h) => Some(h + 1)
  }

  /** The rows of the lines that end in a digit, one per such line, in order. */
  function Coletadas(linhas: seq<string>): seq<seq<string>> {
    if linhas == [] then []
    else (if TerminaEmDigito(linhas[0]) then [Linha(linhas[0])] else []) + Coletadas(linhas[1..])
  }

  lemma {:induction false} ColetadasConcat(a: seq<string>, b: seq<string>)
    ensures Coletadas(a + b) == Coletadas(a) + Coletadas(b)
  {
    if a == [] {
      assert a + b == b;
    } else {
      assert (a + b)[1..] == a[1..] + b;
      ColetadasConcat(a[1..], b);
    }
  }

  /** The loop's final state, described without the loop: nothing before the
      first header line counts, the header fixes the columns once, and from the
      header line on (itself included) every line ending in a digit yields a row. */
  lemma {:induction false} VarrerCaracterizado(linhas: seq<string>)
    ensures Varrer(linhas).flag <==> PrimeiroCabecalho(linhas).Some?
    ensures match PrimeiroCabecalho(linhas)
      case None => Varrer(linhas) == Inicial
      case Some(h) => Varrer(linhas) == Estado(true, Some(Colunas(linhas[h])), Coletadas(linhas[h..]))
  {
    if linhas != [] {
      var n := |linhas| - 1;
      var antes := linhas[..n];
      var ultima := linhas[n];
      VarrerCaracterizado(antes);
      PrimeiroCabecalhoPrefixo(linhas);
      ColetadasUnitaria(ultima);
      assert Varrer(linhas) == Passo(Varrer(antes), ultima);
      match PrimeiroCabecalho(antes)
      case None =>
        if EhCabecalho(ultima) {
          assert linhas[n..] == [ultima];
        }
      case Some(h) =>
        SufixoAcrescido(linhas, h);
        ColetadasConcat(antes[h..], [ultima]);
    }
  }

  lemma SufixoAcrescido(linhas: seq<string>, h: nat)
    requires h < |linhas|
    ensures linhas[h..] == linhas[..|linhas| - 1][h..] + [linhas[|linhas| - 1]]
  {
  }

  lemma ColetadasUnitaria(linha: string)
    ensures Coletadas([linha]) == if TerminaEmDigito(linha) then [Linha(linha)] else []
  {
    assert [linha][1..] == [];
  }

  /** The first header of a file is that of all its lines but the last, or the last line itself. */
  lemma {:induction false} PrimeiroCabecalhoPrefixo(linhas: seq<string>)
    requires linhas != []
    ensures var n := |linhas| - 1;
      PrimeiroCabecalho(linhas) ==
        match PrimeiroCabecalho(linhas[..n])
        case Some(h) => Some(h)
        case None => if EhCabecalho(linhas[n]) then Some(n) else None
  {
    var n := |linhas| - 1;
    var p := PrimeiroCabecalho(linhas[..n]);
    if p.Some? {
      assert linhas[p.value] == linhas[..n][p.value];
      PrimeiroCabecalhoUnico(linhas, p.value);
    } else {
      assert forall j :: 0 <= j < n ==> linhas[j] == linhas[..n][j];
      if EhCabecalho(linhas[n]) {
        PrimeiroCabecalhoUnico(linhas, n);
      }
    }
  }

  /** Any index of a header line with no header line before it is the first one. */
  lemma PrimeiroCabecalhoUnico(linhas: seq<string>, h: nat)
    requires h < |linhas| && EhCabecalho(linhas[h])
    requires forall j :: 0 <= j < h ==> !EhCabecalho(linhas[j])
    ensures PrimeiroCabecalho(linhas) == Some(h)
  {
  }

  /** Every collected row comes from a line ending in a digit, and every such line gives one. */
  lemma {:induction false} ColetadasOrigem(linhas: seq<string>, x: seq<string>)
    ensures x in Coletadas(linhas) <==> exists i :: 0 <= i < |linhas| && TerminaEmDigito(linhas[i]) && x == Linha(linhas[i])
  {
    if linhas != [] {
      ColetadasOrigem(linhas[1..], x);
      if x in Coletadas(linhas[1..]) {
        var i :| 0 <= i < |linhas[1..]| && TerminaEmDigito(linhas[1..][i]) && x == Linha(linhas[1..][i]);
        assert linhas[i + 1] == linhas[1..][i];
      }
      if exists i :: 0 <= i < |linhas| && TerminaEmDigito(linhas[i]) && x == Linha(linhas[i]) {
        var i :| 0 <= i < |linhas| && TerminaEmDigito(linhas[i]) && x == Linha(linhas[i]);
        if i > 0 {
          assert linhas[1..][i - 1] == linhas[i];
        }
      }
    }
  }

  /** The header line itself yields a row when it ends in a digit: the flag is
      raised before the data test of the same iteration. */
  lemma CabecalhoTambemColetado(linhas: seq<string>)
    requires PrimeiroCabecalho(linhas).Some?
    ensures var h := PrimeiroCabecalho(linhas).value;
      Varrer(linhas).dados ==
        (if TerminaEmDigito(linhas[h]) then [Linha(linhas[h])] else []) + Coletadas(linhas[h + 1..])
  {
    VarrerCaracterizado(linhas);
    var h := PrimeiroCabecalho(linhas).value;
    assert linhas[h..][1..] == linhas[h + 1..];
  }

  // ---------------------------------------------------------------------
  // Line 18: `pd.DataFrame(dados, columns=colunas)`

  /** A table: the column names and, per row, one cell per column (None where pandas pads). */
  datatype Tabela = Tabela(colunas: seq<string>, linhas: seq<seq<Option<string>>>)

  /** Why building the table raises: `colunas` was never bound (NameError), or the
      rows are not as wide as the column list (pandas' "columns passed" error). */
  datatype ErroTabela = ColunasNaoDefinidas | LarguraIncompativel(esperada: nat, encontrada: nat)

  /** The width pandas gives a list of rows: that of its widest row. */
  function Largura(dados: seq<seq<string>>): (w: nat)
    ensures forall i :: 0 <= i < |dados| ==> |dados[i]| <= w
    ensures dados != [] ==> exists i :: 0 <= i < |dados| && |dados[i]| == w
    ensures dados == [] ==> w == 0
  {
    if dados == [] then 0
    else
      var w := Largura(dados[1..]);
      if |dados[0]| >= w then |dados[0]| else w
  }

  /** A row padded with missing cells up to width `w`. */
  function Preencher(linha: seq<string>, w: nat): (r: seq<Option<string>>)
    requires |linha| <= w
  {
    seq(w, j requires 0 <= j < w => if j < |linha| then Some(linha[j]) else None)
  }

  /** `pd.DataFrame(dados, columns=colunas)`: rows shorter than the widest are
      padded with missing values; the call fails when there are rows and the
      widest of them is not exactly as wide as the column list. */
  function MontarTabela(colunas: Option<seq<string>>, dados: seq<seq<string>>): (r: Result<Tabela, ErroTabela>)
    ensures r == Err(ColunasNaoDefinidas) <==> colunas.None?
    ensures colunas.Some? ==>
      (r.Ok? <==> (forall i :: 0 <= i < |dados| ==> |dados[i]| <= |colunas.value|)
                  && (dados == [] || exists i :: 0 <= i < |dados| && |dados[i]| == |colunas.value|))
    ensures r.Ok? ==> r.value.colunas == colunas.value && |r.value.linhas| == |dados|
    ensures r.Ok? ==> forall i :: 0 <= i < |dados| ==>
      && |r.value.linhas[i]| == |colunas.value|
      && (forall j :: 0 <= j < |dados[i]| ==> r.value.linhas[i][j] == Some(dados[i][j]))
      && (forall j :: |dados[i]| <= j < |colunas.value| ==> r.value.linhas[i][j] == None)
  {
    match colunas
    case None => Err(ColunasNaoDefinidas)
    case Some(c) =>
      if dados != [] && Largura(dados) != |c| then Err(LarguraIncompativel(|c|, Largura(dados)))
      else Ok(Tabela(c, seq(|dados|, i requires 0 <= i < |dados| => Preencher(dados[i], |c|))))
  }

  /** Lines 8-18 end to end: scan the log, then build the table. */
  function TabelaDoLog(linhas: seq<string>): (r: Result<Tabela, ErroTabela>)
    ensures PrimeiroCabecalho(linhas).None? ==> r == Err(ColunasNaoDefinidas)
    ensures PrimeiroCabecalho(linhas).Some? ==> r.Ok? || r.error.LarguraIncompativel?
  {
    VarrerCaracterizado(linhas);
    var e := Varrer(linhas);
    MontarTabela(e.colunas, e.dados)
  }

  /** When every collected row has exactly one token per column name, the table
      is built and no cell is missing. */
  lemma TabelaRetangular(colunas: seq<string>, dados: seq<seq<string>>)
    requires forall i :: 0 <= i < |dados| ==> |dados[i]| == |colunas|
    ensures MontarTabela(Some(colunas), dados).Ok?
    ensures forall i, j :: 0 <= i < |dados| && 0 <= j < |colunas| ==>
      MontarTabela(Some(colunas), dados).value.linhas[i][j] == Some(dados[i][j])
  {
  }
}
