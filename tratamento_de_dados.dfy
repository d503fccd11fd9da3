/**
 * The conductivity probe `Condutivimetro` of tratamento_de_dados.py.
 *
 * A probe is built from the path of its CSV file. The file name gives its
 * identity (through the pattern of module PadraoCsv), the file's rows give
 * the "original" table, and the treated table (`horario`,
 * `condutividade_eletrica`, `temperatura`) is kept twice: once as the treated
 * original and once as the working copy. Every derived value (sampling
 * interval, time axis, first/last/maximum and normalised conductivity) is
 * read from the working copy each time it is asked for.
 *
 * Timestamps are whole seconds; conductivities and temperatures are reals.
 */
module TratamentoDeDados {
  import opened Common
  import opened Ascii
  import PadraoCsv

  const SegundosPorDia: int := 86400

  /** The first four CSV columns of one reading, already parsed: the date as the
      second at which that day begins, the time of day in seconds, the
      conductivity and the temperature. */
  datatype LinhaCsv = LinhaCsv(data: int, hora: int, condutividade: real, temperatura: real)

  /** A row of the treated table: columns `horario`, `condutividade_eletrica`, `temperatura`. */
  datatype Registro = Registro(horario: int, condutividade: real, temperatura: real)

  /** `os.path.basename` on a POSIX path: what follows the last '/'. */
  function NomeDoArquivo(caminho: string): string {
    if caminho == [] || caminho[|caminho| - 1] == '/' then []
    else NomeDoArquivo(caminho[..|caminho| - 1]) + [caminho[|caminho| - 1]]
  }

  /** The base name is the longest suffix of the path without a '/': a suffix,
      free of '/', and either the whole path or preceded by a '/'. */
  lemma {:induction false} NomeDoArquivoSufixo(caminho: string)
    ensures var r := NomeDoArquivo(caminho);
      && |r| <= |caminho| && caminho[|caminho| - |r|..] == r
      && (forall i :: 0 <= i < |r| ==> r[i] != '/')
      && (|r| < |caminho| ==> caminho[|caminho| - |r| - 1] == '/')
  {
    if caminho != [] && caminho[|caminho| - 1] != '/' {
      var anterior := caminho[..|caminho| - 1];
      NomeDoArquivoSufixo(anterior);
      var r := NomeDoArquivo(caminho);
      assert r == NomeDoArquivo(anterior) + [caminho[|caminho| - 1]];
      assert caminho[|caminho| - |r|..] == anterior[|anterior| - |NomeDoArquivo(anterior)|..] + [caminho[|caminho| - 1]];
    }
  }

  /** `_tratar_base_de_dados`: keep the first four columns, merge date and time
      into one timestamp, and order the columns as horario, conductivity, temperature. */
  function Tratar(csv: seq<LinhaCsv>): (r: seq<Registro>)
    ensures |r| == |csv|
    ensures forall i :: 0 <= i < |csv| ==>
      && r[i].horario == csv[i].data + csv[i].hora
      && r[i].condutividade == csv[i].condutividade
      && r[i].temperatura == csv[i].temperatura
  {
    seq(|csv|, i requires 0 <= i < |csv| => Registro(csv[i].data + csv[i].hora, csv[i].condutividade, csv[i].temperatura))
  }

  // ---------------------------------------------------------------------
  // Derived values of a table (the class applies them to its working copy)

  /** The `condutividade_eletrica` column. */
  function Condutividades(t: seq<Registro>): (c: seq<real>)
    ensures |c| == |t|
    ensures forall i :: 0 <= i < |t| ==> c[i] == t[i].condutividade
  {
    seq(|t|, i requires 0 <= i < |t| => t[i].condutividade)
  }

  /** `intervalo_de_tempo`: `(horario[1] - horario[0]).seconds`, the difference
      reduced modulo one day as `timedelta` normalises it. Python raises when the
      table has fewer than two rows. */
  function Intervalo(t: seq<Registro>): (r: Option<nat>)
    ensures r.Some? <==> |t| >= 2
    ensures r.Some? ==> r.value < SegundosPorDia
  {
    if |t| < 2 then None else Some((t[1].horario - t[0].horario) % SegundosPorDia)
  }

  /** The interval is the difference of the first two timestamps when it lies
      within one day forward, wraps around the day when the clock steps back,
      and is the one value in [0, 86400) that differs from the difference by
      whole days. */
  lemma IntervaloModuloDia(t: seq<Registro>, v: int)
    requires |t| >= 2
    ensures var d := t[1].horario - t[0].horario;
      && (0 <= d < SegundosPorDia ==> Intervalo(t) == Some(d))
      && (-SegundosPorDia < d < 0 ==> Intervalo(t) == Some(SegundosPorDia + d))
      && (0 <= v < SegundosPorDia && (d - v) % SegundosPorDia == 0 ==> Intervalo(t) == Some(v))
  {
  }

  /** `tempo`: the row index times the interval, one entry per row. */
  function Tempos(t: seq<Registro>): (r: Option<seq<int>>)
    ensures r.Some? <==> |t| >= 2
    ensures r.Some? ==> |r.value| == |t|
  {
    match Intervalo(t)
    case None => None
    case Some(dt) => Some(seq(|t|, i requires 0 <= i < |t| => i * dt))
  }

  /** The time axis starts at 0, is evenly spaced by the interval, and never decreases. */
  lemma TemposUniformes(t: seq<Registro>)
    requires |t| >= 2
    ensures var r := Tempos(t).value;
      var dt := Intervalo(t).value;
      && r[0] == 0
      && (forall i :: 0 <= i < |r| - 1 ==> r[i + 1] - r[i] == dt)
      && (forall i, j :: 0 <= i <= j < |r| ==> 0 <= r[i] <= r[j])
  {
    var r := Tempos(t).value;
    var dt := Intervalo(t).value;
    forall i, j | 0 <= i <= j < |r| ensures 0 <= r[i] <= r[j] {
      assert r[j] - r[i] == (j - i) * dt;
    }
  }

  /** `condutividade_inicial`: the first reading (IndexError on an empty table). */
  function Inicial(t: seq<Registro>): (r: Option<real>)
    ensures r.Some? <==> t != []
    ensures r.Some? ==> r.value == Condutividades(t)[0]
  {
    if t == [] then None else Some(t[0].condutividade)
  }

  /** `condutividade_final`: the last reading, `c[-1]`. */
  function Final(t: seq<Registro>): (r: Option<real>)
    ensures r.Some? <==> t != []
    ensures r.Some? ==> r.value == Condutividades(t)[|t| - 1]
  {
    if t == [] then None else Some(t[|t| - 1].condutividade)
  }

  /** The largest value of a column; None (pandas' NaN) when it is empty. */
  function Maximo(c: seq<real>): (r: Option<real>)
    ensures r.None? <==> c == []
    ensures r.Some? ==> r.value in c
    ensures r.Some? ==> forall i :: 0 <= i < |c| ==> c[i] <= r.value
  {
    if c == [] then None
    else match Maximo(c[1..])
      case None => Some(c[0])
      case Some(m) => Some(if c[0] >= m then c[0] else m)
  }

  /** `condutividade_maxima`: the column's maximum, one of its readings and at
      least the first and the last of them. */
  function Maxima(t: seq<Registro>): (r: Option<real>)
    ensures r.None? <==> t == []
    ensures r.Some? ==> r.value in Condutividades(t)
    ensures r.Some? ==> r.value >= Inicial(t).value && r.value >= Final(t).value
  {
    Maximo(Condutividades(t))
  }

  /** Why `condutividade_eletrica_normalizada` has no real values: an empty table
      (IndexError on `c[0]`), or a first reading equal to the last (a division
      by zero, which numpy turns into NaN and infinities). */
  datatype ErroNormalizacao = TabelaVazia | SinalPlano

  /** `condutividade_eletrica_normalizada`: `(c - c0) / (cinf - c0)` element by
      element, with c0 the first and cinf the last reading of the table. */
  function Normalizar(t: seq<Registro>): (r: Result<seq<real>, ErroNormalizacao>)
    ensures r == Err(TabelaVazia) <==> t == []
    ensures r == Err(SinalPlano) <==> t != [] && t[0].condutividade == t[|t| - 1].condutividade
    ensures r.Ok? ==> |r.value| == |t| && r.value[0] == 0.0 && r.value[|t| - 1] == 1.0
    ensures r.Ok? ==> forall i :: 0 <= i < |t| ==>
      t[0].condutividade + r.value[i] * (t[|t| - 1].condutividade - t[0].condutividade) == t[i].condutividade
  {
    if t == [] then Err(TabelaVazia)
    else
      var c0 := t[0].condutividade;
      var cInf := t[|t| - 1].condutividade;
      if c0 == cInf then Err(SinalPlano)
      else
        assert (cInf - c0) / (cInf - c0) == 1.0;
        Ok(seq(|t|, i requires 0 <= i < |t| => (t[i].condutividade - c0) / (cInf - c0)))
  }

  /** Normalising keeps the order of the readings when the signal rises from
      first to last reading, and reverses it when the signal falls. */
  lemma NormalizarMonotona(t: seq<Registro>, i: nat, j: nat)
    requires Normalizar(t).Ok? && i < |t| && j < |t|
    ensures var n := Normalizar(t).value;
      var c0 := t[0].condutividade;
      var cInf := t[|t| - 1].condutividade;
      && (c0 < cInf ==> (t[i].condutividade <= t[j].condutividade <==> n[i] <= n[j]))
      && (c0 > cInf ==> (t[i].condutividade <= t[j].condutividade <==> n[i] >= n[j]))
  {
    var n := Normalizar(t).value;
    var c0 := t[0].condutividade;
    var d := t[|t| - 1].condutividade - c0;
    assert t[i].condutividade - t[j].condutividade == (n[i] - n[j]) * d;
  }

  // ---------------------------------------------------------------------
  // The probe object

  /** Why an assignment to an attribute raises: it names a property without a setter. */
  datatype ErroAtributo = PropriedadeSemSetter(nome: string)

  /** The identity fields that `_obter_arquivo` leaves behind for file name
      `nome`, whose pattern search gave `grupos`: all unset when there was no
      match, otherwise the name itself and groups 1, 2 and 4 (group 3 is not kept). */
  predicate IdentidadeDe(nome: string, grupos: Option<(string, string, string, string)>,
                         arquivo: Option<string>, prefixo: Option<string>,
                         numeroPrefixo: Option<string>, numeroEletrodo: Option<string>)
  {
    if grupos.None? then arquivo == None && prefixo == None && numeroPrefixo == None && numeroEletrodo == None
    else
      && arquivo == Some(nome) && prefixo == Some(grupos.value.0)
      && numeroPrefixo == Some(grupos.value.1) && numeroEletrodo == Some(grupos.value.3)
  }

  class Condutivimetro {
    const caminho: string
    // The identity fields; None stands for an attribute Python never assigned.
    var arquivo: Option<string>
    var prefixoBruto: Option<string>
    var numeroPrefixo: Option<string>
    var numeroEletrodo: Option<string>
    /** The file's rows as read. */
    var dadosOriginais: seq<LinhaCsv>
    /** The treated table as built at construction. */
    var dadosTratadosOriginais: seq<Registro>
    /** The working copy every derived value is read from. */
    var dadosTratados: seq<Registro>

    /** `__init__`: identity from the file name, then the rows, then the two treated tables. */
    constructor (caminho: string, csv: seq<LinhaCsv>)
      ensures this.caminho == caminho
      ensures IdentidadeDe(NomeDoArquivo(this.caminho), PadraoCsv.Capturas(NomeDoArquivo(this.caminho)), arquivo, prefixoBruto, numeroPrefixo, numeroEletrodo)
      ensures dadosOriginais == csv
      ensures dadosTratadosOriginais == Tratar(csv)
      ensures dadosTratados == dadosTratadosOriginais
    {
      this.caminho := caminho;
      arquivo, prefixoBruto, numeroPrefixo, numeroEletrodo := None, None, None, None;
      dadosOriginais, dadosTratadosOriginais, dadosTratados := [], [], [];
      new;
      ObterArquivo();
      ObterBaseDeDados(csv);
      TratarBaseDeDados();
    }

    /** `_obter_arquivo`: keep the base name and read the identity only when the pattern is found in it. */
    method ObterArquivo()
      requires arquivo == None && prefixoBruto == None && numeroPrefixo == None && numeroEletrodo == None
      modifies this`arquivo, this`prefixoBruto, this`numeroPrefixo, this`numeroEletrodo
      ensures IdentidadeDe(NomeDoArquivo(caminho), PadraoCsv.Capturas(NomeDoArquivo(caminho)), arquivo, prefixoBruto, numeroPrefixo, numeroEletrodo)
    {
      var nome := NomeDoArquivo(caminho);
      var grupos := PadraoCsv.Capturas(nome);
      if grupos.Some? {
        arquivo := Some(nome);
        ObterIdentificacao();
        assert arquivo.value == nome;
      }
      assert IdentidadeDe(nome, grupos, arquivo, prefixoBruto, numeroPrefixo, numeroEletrodo);
    }

    /** `_obter_identificacao`: groups 1, 2 and 4 of the pattern in the file name. */
    method ObterIdentificacao()
      requires arquivo.Some? && PadraoCsv.Capturas(arquivo.value).Some?
      modifies this`prefixoBruto, this`numeroPrefixo, this`numeroEletrodo
      ensures IdentidadeDe(arquivo.value, PadraoCsv.Capturas(arquivo.value), arquivo, prefixoBruto, numeroPrefixo, numeroEletrodo)
    {
      var grupos := PadraoCsv.Capturas(arquivo.value).value;
      prefixoBruto := Some(grupos.0);
      numeroPrefixo := Some(grupos.1);
      numeroEletrodo := Some(grupos.3);
    }

    /** `_obter_base_de_dados`: the rows of the CSV file (reading it is not modelled). */
    method ObterBaseDeDados(csv: seq<LinhaCsv>)
      modifies this`dadosOriginais
      ensures dadosOriginais == csv
    {
      dadosOriginais := csv;
    }

    /** `_tratar_base_de_dados`: the treated table, and a copy of it as the working table. */
    method TratarBaseDeDados()
      modifies this`dadosTratadosOriginais, this`dadosTratados
      ensures dadosTratadosOriginais == Tratar(dadosOriginais)
      ensures dadosTratados == dadosTratadosOriginais
    {
      var dados := Tratar(dadosOriginais);
      dadosTratadosOriginais := dados;
      dadosTratados := dados;
    }

    /** `prefixo`: group 1 capitalised. */
    function Prefixo(): (r: Option<string>)
      reads this
      ensures r.Some? <==> prefixoBruto.Some?
      ensures r.Some? ==> r.value == Capitalize(prefixoBruto.value)
    {
      if prefixoBruto.Some? then Some(Capitalize(prefixoBruto.value)) else None
    }

    /** `eletrodo`: 'eletrodo_' followed by group 4. */
    function Eletrodo(): (r: Option<string>)
      reads this
      ensures r.Some? <==> numeroEletrodo.Some?
      ensures r.Some? ==> |r.value| == 9 + |numeroEletrodo.value|
      ensures r.Some? ==> r.value[..9] == "eletrodo_" && r.value[9..] == numeroEletrodo.value
    {
      if numeroEletrodo.Some? then Some("eletrodo_" + numeroEletrodo.value) else None
    }

    /** `numero_de_observacoes`: the number of rows of the working table. */
    function NumeroDeObservacoes(): (n: nat)
      reads this
      ensures n == |Condutividades(dadosTratados)|
      ensures IntervaloDeTempo().Some? <==> n >= 2
    {
      |dadosTratados|
    }

    function IntervaloDeTempo(): Option<nat>
      reads this
    {
      Intervalo(dadosTratados)
    }

    function Tempo(): Option<seq<int>>
      reads this
    {
      Tempos(dadosTratados)
    }

    function CondutividadeInicial(): Option<real>
      reads this
    {
      Inicial(dadosTratados)
    }

    function CondutividadeFinal(): Option<real>
      reads this
    {
      Final(dadosTratados)
    }

    function CondutividadeMaxima(): Option<real>
      reads this
    {
      Maxima(dadosTratados)
    }

    function CondutividadeEletricaNormalizada(): Result<seq<real>, ErroNormalizacao>
      reads this
    {
      Normalizar(dadosTratados)
    }

    /** `resetar_dados` as written: it assigns to `dados_tratados`, a property
        with no setter, so Python raises AttributeError and nothing changes. */
    method ResetarDadosComoEscrito() returns (r: Result<(), ErroAtributo>)
      ensures r == Err(PropriedadeSemSetter("dados_tratados"))
    {
      r := Err(PropriedadeSemSetter("dados_tratados"));
    }

    /** `resetar_dados` as intended: the working table is the treated original
        again, so every derived value is what it was right after construction. */
    method ResetarDados()
      modifies this`dadosTratados
      ensures dadosTratados == dadosTratadosOriginais
    {
      dadosTratados := dadosTratadosOriginais;
    }
  }

  /** What the constructor keeps for a file named `reator_01_el_02.csv`. */
  lemma IdentidadeReator(nome: string, arquivo: Option<string>, prefixo: Option<string>,
                         numeroPrefixo: Option<string>, numeroEletrodo: Option<string>)
    requires nome == "reator_01_el_02.csv"
    requires IdentidadeDe(nome, PadraoCsv.Capturas(nome), arquivo, prefixo, numeroPrefixo, numeroEletrodo)
    ensures arquivo == Some(nome) && prefixo == Some("reator")
    ensures numeroPrefixo == Some("01") && numeroEletrodo == Some("02")
    ensures Capitalize(prefixo.value) == "Reator"
    ensures "eletrodo_" + numeroEletrodo.value == "eletrodo_02"
  {
    PadraoCsv.ExemploReator(nome);
    CapitalizaReator(prefixo.value);
  }

  lemma CapitalizaReator(rotulo: string)
    requires rotulo == "reator"
    ensures Capitalize(rotulo) == "Reator"
  {
  }

  /** A probe whose file is `reator_01_el_02.csv`, in any directory: label
      "Reator", group "01", electrode "eletrodo_02" (leading zeros kept). */
  method ExemploReatorIdentidade(caminho: string, csv: seq<LinhaCsv>)
    returns (prefixo: Option<string>, numero: Option<string>, eletrodo: Option<string>)
    requires NomeDoArquivo(caminho) == "reator_01_el_02.csv"
    ensures prefixo == Some("Reator") && numero == Some("01") && eletrodo == Some("eletrodo_02")
  {
    var sonda := new Condutivimetro(caminho, csv);
    IdentidadeReator(NomeDoArquivo(caminho), sonda.arquivo, sonda.prefixoBruto, sonda.numeroPrefixo, sonda.numeroEletrodo);
    prefixo, numero, eletrodo := sonda.Prefixo(), sonda.numeroPrefixo, sonda.Eletrodo();
  }

  /** Five readings one minute apart: a 60-second interval, a time axis
      0, 60, ..., 240, and a normalised series that runs from 0 to 1. */
  method ExemploReatorSerie(caminho: string)
    returns (intervalo: Option<nat>, tempo: Option<seq<int>>, normalizada: Result<seq<real>, ErroNormalizacao>)
    ensures intervalo == Some(60)
    ensures tempo == Some([0, 60, 120, 180, 240])
    ensures normalizada.Ok? && |normalizada.value| == 5
    ensures normalizada.value[0] == 0.0 && normalizada.value[4] == 1.0
  {
    var dia := 19000 * SegundosPorDia;
    var csv := [LinhaCsv(dia, 36000, 10.0, 25.0), LinhaCsv(dia, 36060, 12.0, 25.0), LinhaCsv(dia, 36120, 15.0, 25.0),
                LinhaCsv(dia, 36180, 14.0, 25.0), LinhaCsv(dia, 36240, 14.5, 25.0)];
    var sonda := new Condutivimetro(caminho, csv);
    intervalo, tempo := sonda.IntervaloDeTempo(), sonda.Tempo();
    assert tempo.value == [0 * 60, 1 * 60, 2 * 60, 3 * 60, 4 * 60];
    normalizada := sonda.CondutividadeEletricaNormalizada();
  }
}
