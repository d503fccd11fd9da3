/**
 * The probe-file pattern `(\w+)_(\d+)_(\w+)_(\d+).csv` of
 * tratamento_de_dados.py, applied with `re.search`.
 *
 * The search is unanchored: it tries every start position from the left and
 * returns the first one at which the pattern matches. At that position the
 * regular-expression engine backtracks over the greedy groups in order, so it
 * returns the match whose group lengths are the largest in lexicographic
 * order (longest first group, then longest second group among those, ...).
 * The `.` before `csv` is not escaped and matches any character but a newline;
 * nothing is required after `csv`.
 */
module PadraoCsv {
  import opened Common
  import opened Ascii

  /** A match: where it starts and the lengths of the four capture groups. */
  datatype Casamento = Casamento(inicio: nat, n1: nat, n2: nat, n3: nat, n4: nat)

  predicate Palavra(s: string, p: nat, n: nat)
    requires p + n <= |s|
  {
    forall k :: p <= k < p + n ==> IsWordChar(s[k])
  }

  predicate Digitos(s: string, p: nat, n: nat)
    requires p + n <= |s|
  {
    forall k :: p <= k < p + n ==> IsDigit(s[k])
  }

  /** `(\w+)_` at `p`, the group `n` characters long. */
  predicate PalavraSublinhado(s: string, p: nat, n: nat) {
    1 <= n && p + n < |s| && Palavra(s, p, n) && s[p + n] == '_'
  }

  /** `(\d+)_` at `p`, the group `n` characters long. */
  predicate DigitosSublinhado(s: string, p: nat, n: nat) {
    1 <= n && p + n < |s| && Digitos(s, p, n) && s[p + n] == '_'
  }

  /** `(\d+).csv` at `p`, the group `n` characters long. */
  predicate DigitosCsv(s: string, p: nat, n: nat) {
    1 <= n && p + n + 4 <= |s| && Digitos(s, p, n)
    && s[p + n] != '\n' && s[p + n + 1] == 'c' && s[p + n + 2] == 's' && s[p + n + 3] == 'v'
  }

  /** The pattern from its third group on: `(\w+)_(\d+).csv` at `p`. */
  predicate Casa3(s: string, p: nat, n3: nat, n4: nat) {
    PalavraSublinhado(s, p, n3) && DigitosCsv(s, p + n3 + 1, n4)
  }

  /** The pattern from its second group on: `(\d+)_(\w+)_(\d+).csv` at `p`. */
  predicate Casa2(s: string, p: nat, n2: nat, n3: nat, n4: nat) {
    DigitosSublinhado(s, p, n2) && Casa3(s, p + n2 + 1, n3, n4)
  }

  /** The whole pattern at `p`. */
  predicate Casa1(s: string, p: nat, n1: nat, n2: nat, n3: nat, n4: nat) {
    PalavraSublinhado(s, p, n1) && Casa2(s, p + n1 + 1, n2, n3, n4)
  }

  predicate CasaEm(s: string, m: Casamento) {
    Casa1(s, m.inicio, m.n1, m.n2, m.n3, m.n4)
  }

  /** Lexicographic order on the group lengths: the order in which backtracking gives up. */
  predicate NaoAntes(a: Casamento, b: Casamento) {
    || a.n1 < b.n1
    || (a.n1 == b.n1 && a.n2 < b.n2)
    || (a.n1 == b.n1 && a.n2 == b.n2 && a.n3 < b.n3)
    || (a.n1 == b.n1 && a.n2 == b.n2 && a.n3 == b.n3 && a.n4 <= b.n4)
  }

  // ---------------------------------------------------------------------
  // Backtracking, group by group, longest candidate first

  /** The longest fourth group of at most `limite` characters. */
  function Tenta4(s: string, p: nat, limite: nat): (r: Option<nat>)
    ensures r.Some? ==> r.value <= limite && DigitosCsv(s, p, r.value)
    ensures forall m: nat :: (r.None? || r.value < m) && m <= limite ==> !DigitosCsv(s, p, m)
  {
    if limite == 0 then None
    else if DigitosCsv(s, p, limite) then Some(limite)
    else Tenta4(s, p, limite - 1)
  }

  /** Third and fourth groups, the third of at most `limite` characters. */
  function Tenta3(s: string, p: nat, limite: nat): (r: Option<(nat, nat)>)
    ensures r.Some? ==> r.value.0 <= limite && Casa3(s, p, r.value.0, r.value.1)
    ensures forall m3: nat, m4: nat :: m3 <= limite && Casa3(s, p, m3, m4) ==>
      r.Some? && (m3 < r.value.0 || (m3 == r.value.0 && m4 <= r.value.1))
  {
    if limite == 0 then None
    else if PalavraSublinhado(s, p, limite) && Tenta4(s, p + limite + 1, |s|).Some? then
      Some((limite, Tenta4(s, p + limite + 1, |s|).value))
    else Tenta3(s, p, limite - 1)
  }

  /** Second to fourth groups, the second of at most `limite` characters. */
  function Tenta2(s: string, p: nat, limite: nat): (r: Option<(nat, nat, nat)>)
    ensures r.Some? ==> r.value.0 <= limite && Casa2(s, p, r.value.0, r.value.1, r.value.2)
    ensures forall m2: nat, m3: nat, m4: nat :: m2 <= limite && Casa2(s, p, m2, m3, m4) ==>
      r.Some? && (|| m2 < r.value.0
                  || (m2 == r.value.0 && m3 < r.value.1)
                  || (m2 == r.value.0 && m3 == r.value.1 && m4 <= r.value.2))
  {
    if limite == 0 then None
    else if DigitosSublinhado(s, p, limite) && Tenta3(s, p + limite + 1, |s|).Some? then
      var t := Tenta3(s, p + limite + 1, |s|).value;
      Some((limite, t.0, t.1))
    else Tenta2(s, p, limite - 1)
  }

  /** All four groups at start `p`, the first of at most `limite` characters. */
  function Tenta1(s: string, p: nat, limite: nat): (r: Option<Casamento>)
    ensures r.Some? ==> r.value.inicio == p && r.value.n1 <= limite && CasaEm(s, r.value)
    ensures forall m1: nat, m2: nat, m3: nat, m4: nat :: m1 <= limite && Casa1(s, p, m1, m2, m3, m4) ==>
      r.Some? && NaoAntes(Casamento(p, m1, m2, m3, m4), r.value)
  {
    if limite == 0 then None
    else if PalavraSublinhado(s, p, limite) && Tenta2(s, p + limite + 1, |s|).Some? then
      var t := Tenta2(s, p + limite + 1, |s|).value;
      Some(Casamento(p, limite, t.0, t.1, t.2))
    else Tenta1(s, p, limite - 1)
  }

  /** `padrao_csv.search(s)` from start position `i` on. */
  function BuscaDesde(s: string, i: nat): (r: Option<Casamento>)
    ensures r.Some? ==> i <= r.value.inicio && CasaEm(s, r.value)
    ensures forall m: Casamento :: i <= m.inicio && CasaEm(s, m) ==>
      r.Some? && r.value.inicio <= m.inicio && (m.inicio == r.value.inicio ==> NaoAntes(m, r.value))
    decreases |s| - i + 1
  {
    if i > |s| then None
    else match Tenta1(s, i, |s| - i)
      case Some(m) => Some(m)
      case None => BuscaDesde(s, i + 1)
  }

  /** `padrao_csv.search(s)`: the leftmost match, and at that start the one
      backtracking reaches first. None when no substring of `s` matches. */
  function Busca(s: string): (r: Option<Casamento>)
    ensures r.Some? ==> CasaEm(s, r.value)
    ensures r.None? <==> forall m: Casamento :: !CasaEm(s, m)
    ensures r.Some? ==> forall m: Casamento :: CasaEm(s, m) ==> r.value.inicio <= m.inicio
    ensures r.Some? ==> forall m: Casamento :: CasaEm(s, m) && m.inicio == r.value.inicio ==> NaoAntes(m, r.value)
  {
    BuscaDesde(s, 0)
  }

  /** The text of groups 1 to 4 of the search's match, as `.group(1)` to `.group(4)` give them. */
  function Capturas(s: string): (r: Option<(string, string, string, string)>)
    ensures r.Some? <==> Busca(s).Some?
    ensures r.Some? ==> var m := Busca(s).value;
      && |r.value.0| == m.n1 && |r.value.1| == m.n2 && |r.value.2| == m.n3 && |r.value.3| == m.n4
      && r.value.0 == s[m.inicio..m.inicio + m.n1]
  {
    match Busca(s)
    case None => None
    case Some(m) =>
      var p2 := m.inicio + m.n1 + 1;
      var p3 := p2 + m.n2 + 1;
      var p4 := p3 + m.n3 + 1;
      Some((s[m.inicio..m.inicio + m.n1], s[p2..p2 + m.n2], s[p3..p3 + m.n3], s[p4..p4 + m.n4]))
  }

  /** The text of a match, cut at its groups: four non-empty runs of their
      classes joined by the pattern's literals. */
  lemma GruposDoCasamento(s: string, m: Casamento)
    requires CasaEm(s, m)
    ensures var p2 := m.inicio + m.n1 + 1;
      var p3 := p2 + m.n2 + 1;
      var p4 := p3 + m.n3 + 1;
      var fim := p4 + m.n4 + 4;
      var g1, g2, g3, g4 := s[m.inicio..p2 - 1], s[p2..p3 - 1], s[p3..p4 - 1], s[p4..fim - 4];
      && fim <= |s|
      && g1 != [] && (forall k :: 0 <= k < |g1| ==> IsWordChar(g1[k]))
      && g2 != [] && (forall k :: 0 <= k < |g2| ==> IsDigit(g2[k]))
      && g3 != [] && (forall k :: 0 <= k < |g3| ==> IsWordChar(g3[k]))
      && g4 != [] && (forall k :: 0 <= k < |g4| ==> IsDigit(g4[k]))
      && s[fim - 4] != '\n'
      && s[m.inicio..fim] == g1 + "_" + g2 + "_" + g3 + "_" + g4 + [s[fim - 4]] + "csv"
  {
    var p1 := m.inicio;
    var p2 := p1 + m.n1 + 1;
    var p3 := p2 + m.n2 + 1;
    var p4 := p3 + m.n3 + 1;
    var fim := p4 + m.n4 + 4;
    Juncao(s, p1, p2, p3, p4, fim);
  }

  /** Cutting `s[p1..fim]` at the three underscores and before `.csv`. */
  lemma Juncao(s: string, p1: nat, p2: nat, p3: nat, p4: nat, fim: nat)
    requires p1 < p2 < p3 < p4 && p4 + 4 < fim <= |s|
    requires s[p2 - 1] == '_' && s[p3 - 1] == '_' && s[p4 - 1] == '_'
    requires s[fim - 3] == 'c' && s[fim - 2] == 's' && s[fim - 1] == 'v'
    ensures s[p1..fim] == s[p1..p2 - 1] + "_" + s[p2..p3 - 1] + "_" + s[p3..p4 - 1] + "_" + s[p4..fim - 4] + [s[fim - 4]] + "csv"
  {
    assert s[p1..p2] == s[p1..p2 - 1] + "_";
    assert s[p2..p3] == s[p2..p3 - 1] + "_";
    assert s[p3..p4] == s[p3..p4 - 1] + "_";
    assert s[p4..fim] == s[p4..fim - 4] + [s[fim - 4]] + "csv";
    assert s[p1..fim] == s[p1..p2] + s[p2..p3] + s[p3..p4] + s[p4..fim];
  }

  /** The search finds nothing exactly when no substring of the name matches the pattern. */
  lemma CapturasAusentes(s: string)
    ensures Capturas(s).None? <==> forall m: Casamento :: !CasaEm(s, m)
  {
  }

  /** What `.group(1)` to `.group(4)` return: non-empty runs of their classes
      that, joined by the pattern's literals, occur in the name. */
  lemma CapturasFormamOPadrao(s: string)
    requires Capturas(s).Some?
    ensures var (g1, g2, g3, g4) := Capturas(s).value;
      var k := Busca(s).value.inicio;
      var fim := k + |g1| + |g2| + |g3| + |g4| + 7;
      && g1 != [] && (forall k :: 0 <= k < |g1| ==> IsWordChar(g1[k]))
      && g2 != [] && (forall k :: 0 <= k < |g2| ==> IsDigit(g2[k]))
      && g3 != [] && (forall k :: 0 <= k < |g3| ==> IsWordChar(g3[k]))
      && g4 != [] && (forall k :: 0 <= k < |g4| ==> IsDigit(g4[k]))
      && fim <= |s| && s[fim - 4] != '\n'
      && s[k..fim] == g1 + "_" + g2 + "_" + g3 + "_" + g4 + [s[fim - 4]] + "csv"
  {
    var m := Busca(s).value;
    CapturasDe(s, m);
    GruposDoCasamento(s, m);
  }

  /** The groups of a known match, cut out of the name. */
  lemma CapturasDe(s: string, m: Casamento)
    requires Busca(s) == Some(m)
    ensures var p2 := m.inicio + m.n1 + 1;
      var p3 := p2 + m.n2 + 1;
      var p4 := p3 + m.n3 + 1;
      Capturas(s) == Some((s[m.inicio..m.inicio + m.n1], s[p2..p2 + m.n2], s[p3..p3 + m.n3], s[p4..p4 + m.n4]))
  {
  }

  /** The electrode file of the usual layout: label, group number, tag, electrode number. */
  lemma ExemploReator(nome: string)
    requires nome == "reator_01_el_02.csv"
    ensures Capturas(nome) == Some(("reator", "01", "el", "02"))
  {
    var esperado := Casamento(0, 6, 2, 2, 2);
    BuscaReator(nome);
    CapturasDe(nome, esperado);
    FatiasReator(nome);
  }

  lemma FatiasReator(nome: string)
    requires nome == "reator_01_el_02.csv"
    ensures nome[0..6] == "reator" && nome[7..9] == "01" && nome[10..12] == "el" && nome[13..15] == "02"
  {
  }

  lemma BuscaReator(nome: string)
    requires nome == "reator_01_el_02.csv"
    ensures Busca(nome) == Some(Casamento(0, 6, 2, 2, 2))
  {
    var esperado := Casamento(0, 6, 2, 2, 2);
    assert CasaEm(nome, esperado);
    var m := Busca(nome).value;
    assert nome[m.n1] == '_';
    assert IsDigit(nome[m.n1 + 1]);
  }

  /** Greedy backtracking: the first group takes the longest word run that still
      lets the rest of the pattern match, underscores included. */
  lemma ExemploGuloso(nome: string)
    requires nome == "a_1_2_3_4.csv"
    ensures Capturas(nome) == Some(("a_1", "2", "3", "4"))
  {
    BuscaGuloso(nome);
    CapturasDe(nome, Casamento(0, 3, 1, 1, 1));
    FatiasGuloso(nome);
  }

  lemma FatiasGuloso(nome: string)
    requires nome == "a_1_2_3_4.csv"
    ensures nome[0..3] == "a_1" && nome[4..5] == "2" && nome[6..7] == "3" && nome[8..9] == "4"
  {
  }

  lemma BuscaGuloso(nome: string)
    requires nome == "a_1_2_3_4.csv"
    ensures Busca(nome) == Some(Casamento(0, 3, 1, 1, 1))
  {
    assert CasaEm(nome, Casamento(0, 3, 1, 1, 1));
    var m := Busca(nome).value;
    assert nome[m.n1] == '_';
    assert IsDigit(nome[m.n1 + 1]);
  }

  /** The unescaped `.` lets any character stand before `csv`. */
  lemma ExemploPontoQualquer(nome: string)
    requires nome == "a_1_b_2Xcsv"
    ensures Capturas(nome) == Some(("a", "1", "b", "2"))
  {
    var esperado := Casamento(0, 1, 1, 1, 1);
    BuscaPontoQualquer(nome);
    CapturasDe(nome, esperado);
    FatiasPontoQualquer(nome);
  }

  lemma FatiasPontoQualquer(nome: string)
    requires nome == "a_1_b_2Xcsv"
    ensures nome[0..1] == "a" && nome[2..3] == "1" && nome[4..5] == "b" && nome[6..7] == "2"
  {
  }

  lemma BuscaPontoQualquer(nome: string)
    requires nome == "a_1_b_2Xcsv"
    ensures Busca(nome) == Some(Casamento(0, 1, 1, 1, 1))
  {
    assert CasaEm(nome, Casamento(0, 1, 1, 1, 1));
    var m := Busca(nome).value;
    assert nome[m.n1] == '_';
    assert IsDigit(nome[m.n1 + 1]);
  }

  /** A name with only two of the four groups does not match. */
  lemma ExemploSemCasamento(nome: string)
    requires nome == "reator_01.csv"
    ensures Capturas(nome) == None
  {
  }
}
