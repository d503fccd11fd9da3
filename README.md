# Conductivity-probe and solver-log processing, modelled in Dafny

This project models the two data-handling pieces of a set of mixing-tank
scripts.

- **The residual-table extractor of a CFD solver log**
  (`leitura_outputlog.py`). The script scans the log line by line. It waits
  for the first line whose stripped text starts with `iter`, and takes the
  column names from that line. From then on it collects every line that ends
  in a digit, keeping that line's tokens minus the last two. It then builds a
  pandas table from the rows and the column names.
- **The conductivity probe `Condutivimetro`** (`tratamento_de_dados.py`).
  - The probe's identity is read from its file name with the pattern
    `(\w+)_(\d+)_(\w+)_(\d+).csv`. The pattern is applied with an unanchored
    `re.search`, its groups are greedy and its `.` is unescaped.
  - Its CSV rows are turned into a treated table (`horario`,
    `condutividade_eletrica`, `temperatura`). That table is kept twice: as the
    treated original and as the working copy.
  - The derived values are read from the working copy: the sampling interval,
    the time axis, the first, last and maximum conductivity, and the
    normalised conductivity.
  - It also has a reset operation.

Files:

- `common.dfy`: `Option` and `Result`.
- `ascii.dfy`: Python's character classes and `strip`, `split`,
  `capitalize` and `xs[0:-k]`, restricted to ASCII.
- `leitura_outputlog.dfy`: the scanning loop as a method. It is proved equal
  to a fold of one loop step over the lines. That fold in turn is proved equal
  to a description written from the front of the file: the first header, then
  the rows collected from the header line on. The file also models the table
  built at line 18.
- `padrao_csv.dfy`: the file-name search. It is written as backtracking over
  the four groups, longest candidate first. It is proved to return the
  leftmost match and, at that start, the match with the lexicographically
  largest group lengths. This is the match Python's backtracking engine
  returns.
- `tratamento_de_dados.dfy`:
  - the `Condutivimetro` class, whose fields the constructor and its helper
    methods set step by step;
  - the pure functions the class's properties apply to the working table;
  - worked examples.

Three behaviours of the code worth stating:

- A file name that does not match the pattern is not an error. The identity
  fields are simply left unset, which the model writes as `None`.
- The sampling interval is taken from the first two timestamps only. Later
  gaps are not checked.
- The reset operation does not restore anything, because as written it
  raises (see Findings).

## Model

| member | source | states |
|---|---|---|
| LeituraOutputLog.Ler | leitura_outputlog.py:8-16 | The loop ends with `flag` set iff some line is a header. With no header, `colunas` is unbound and `dados` is empty. Otherwise `colunas` comes from the first header line and `dados` is the rows of the lines from that header on. The loop's state is also tied to the fold of one step per line. |
| LeituraOutputLog.Passo | leitura_outputlog.py:12-16 | One iteration of the loop. The flag is up afterwards iff it was up before or the line is a header. Once the flag is up the columns never change, and the first header sets them to its tokens minus the last. While no header has been seen nothing changes. At most one row is appended, `Linha(linha)`, and it is appended iff the flag is up and the raw line ends in a digit. |
| LeituraOutputLog.VarrerCaracterizado | leitura_outputlog.py:11-16 | The line-by-line fold equals the front-of-file description. The first header fixes the columns, and later `iter` lines do not change them. No line before that header yields a row. From the header on, each line ending in a digit yields one row, in file order. |
| LeituraOutputLog.PrimeiroCabecalho | leitura_outputlog.py:12-14 | Finds the index of the first line whose stripped text starts with `iter`. No earlier line is a header, and it gives None iff no line is. |
| LeituraOutputLog.PrimeiroCabecalhoPrefixo | leitura_outputlog.py:12 | Adding a line to the end keeps the first header of the earlier lines. If the earlier lines had none, the new line is the first header when it is one. |
| LeituraOutputLog.ColetadasConcat | leitura_outputlog.py:11-16 | Collecting rows from two blocks of lines gives the rows of the first block followed by those of the second, so rows keep file order. |
| LeituraOutputLog.ColetadasOrigem | leitura_outputlog.py:15-16 | A row is collected iff some line ends in a digit (the `\d$` test on the raw line) and that row is the line's tokens minus the last two. |
| LeituraOutputLog.CabecalhoTambemColetado | leitura_outputlog.py:12-16 | The header line itself gives the first row when it ends in a digit, because the flag is raised before the data test of the same iteration. |
| LeituraOutputLog.Largura | leitura_outputlog.py:18 | The width pandas gives a list of rows is that of the widest row, or 0 when there are no rows. |
| LeituraOutputLog.MontarTabela | leitura_outputlog.py:18 | `DataFrame(dados, columns=colunas)` fails with a NameError iff `colunas` is unbound. With columns, it succeeds iff no row is wider than the column list and, when there are rows, the widest is exactly as wide. On success there is one row per collected row, each as wide as the column list, with the row's tokens in order and missing cells after them. |
| LeituraOutputLog.TabelaDoLog | leitura_outputlog.py:8-18 | Scanning a log without an `iter` line ends in the NameError. With one, the result is a table or a width mismatch. |
| LeituraOutputLog.TabelaRetangular | leitura_outputlog.py:18 | When every row has one token per column, the table is built with every cell holding its token. |
| Ascii.Split | leitura_outputlog.py:13 | `str.split()` returns non-empty tokens that contain no whitespace. |
| Ascii.SplitPalavra | leitura_outputlog.py:13 | A non-empty run without whitespace splits into exactly itself. |
| Ascii.SplitVazio | leitura_outputlog.py:13 | `str.split()` gives no tokens iff the string is all whitespace. |
| Ascii.SplitEspaco | leitura_outputlog.py:13 | A whitespace character separates: the tokens of `a + [c] + b` are those of `a` followed by those of `b`. With the two rows above this fixes `split()` on every string. |
| Ascii.DropLast | leitura_outputlog.py:16 | The slice `xs[0:-k]` is a prefix of `xs`, k shorter, and empty when `xs` has at most k items. |
| Ascii.TrimStart | leitura_outputlog.py:12 | Stripping the front leaves text that is empty or starts with a non-space. |
| Ascii.TrimStartCaracterizado | leitura_outputlog.py:12 | `strip` drops exactly the leading whitespace: the result is a suffix of the line, all that precedes it is whitespace, and it does not start with whitespace. |
| Ascii.TrimEndCaracterizado | leitura_outputlog.py:12 | `strip` drops exactly the trailing whitespace: the result is a prefix, all that follows it is whitespace, and it does not end with whitespace. |
| Ascii.Capitalize | tratamento_de_dados.py:29 | `str.capitalize` keeps the length, upper-cases the first letter and lower-cases every later letter. |
| PadraoCsv.Tenta4 | tratamento_de_dados.py:11 | Finds the longest `(\d+).csv` run within the limit at a position; None iff there is none. |
| PadraoCsv.Tenta3 | tratamento_de_dados.py:11 | Finds the backtracking-first `(\w+)_(\d+).csv` at a position: the longest third group, then the longest fourth. |
| PadraoCsv.Tenta2 | tratamento_de_dados.py:11 | Finds the backtracking-first `(\d+)_(\w+)_(\d+).csv` at a position, in lexicographic order of the group lengths. |
| PadraoCsv.Tenta1 | tratamento_de_dados.py:11 | Finds the backtracking-first match of the whole pattern at a start: every match there is lexicographically no later. |
| PadraoCsv.BuscaDesde | tratamento_de_dados.py:11 | Searches from a start position on and returns the leftmost match. At that start it returns the backtracking-first match. |
| PadraoCsv.Busca | tratamento_de_dados.py:137 | `padrao_csv.search` returns a match that starts at or before every other match. At its start no match has larger group lengths in lexicographic order. It returns None iff no substring matches. |
| PadraoCsv.Capturas | tratamento_de_dados.py:144-146 | `.group(1)` to `.group(4)` exist iff the search finds a match. Their lengths are the match's group lengths, and group 1 is the name's text at the match's start. |
| PadraoCsv.GruposDoCasamento | tratamento_de_dados.py:11 | A match is four non-empty runs of `\w`, `\d`, `\w` and `\d`, joined by `_`, then any non-newline character and `csv`. |
| PadraoCsv.CapturasAusentes | tratamento_de_dados.py:137-141 | The search fails exactly when no substring of the name matches. |
| PadraoCsv.CapturasFormamOPadrao | tratamento_de_dados.py:144-146 | `.group(1)` to `.group(4)` are non-empty runs of their classes that occur in the name joined by the pattern's literals. |
| PadraoCsv.CapturasDe | tratamento_de_dados.py:144-146 | The groups of a match are the name's slices at the match's offsets. |
| PadraoCsv.ExemploReator | tratamento_de_dados.py:143-146 | `reator_01_el_02.csv` gives the groups `reator`, `01`, `el` and `02`, with leading zeros kept. |
| PadraoCsv.ExemploGuloso | tratamento_de_dados.py:11 | Greedy backtracking: `a_1_2_3_4.csv` gives `a_1`, `2`, `3` and `4`. |
| PadraoCsv.ExemploPontoQualquer | tratamento_de_dados.py:11 | The unescaped `.` accepts `a_1_b_2Xcsv`, which gives `a`, `1`, `b` and `2`. |
| PadraoCsv.ExemploSemCasamento | tratamento_de_dados.py:135-141 | `reator_01.csv` does not match. |
| TratamentoDeDados.NomeDoArquivoSufixo | tratamento_de_dados.py:136 | `os.path.basename` on a POSIX path gives the longest suffix of the path without a `/`. |
| TratamentoDeDados.Tratar | tratamento_de_dados.py:151-159 | The treated table has one row per CSV row. Each row's `horario` is that row's date plus its time of day, and its conductivity and temperature are the row's own. |
| TratamentoDeDados.Condutividades | tratamento_de_dados.py:86-88 | The conductivity column has one reading per row, in row order. |
| TratamentoDeDados.Intervalo | tratamento_de_dados.py:78-80 | `intervalo_de_tempo` exists iff the table has at least two rows, and it lies in [0, 86400). |
| TratamentoDeDados.IntervaloModuloDia | tratamento_de_dados.py:80 | `.seconds` is the difference of the first two timestamps when that difference is less than a day forward. A backward step of less than a day wraps to 86400 minus its size. In general it is the one value in [0, 86400) that differs from the difference by whole days. |
| TratamentoDeDados.Tempos | tratamento_de_dados.py:82-84 | `tempo` exists iff the interval does, with one entry per row. |
| TratamentoDeDados.TemposUniformes | tratamento_de_dados.py:84 | The time axis starts at 0, steps by exactly the interval and never decreases. |
| TratamentoDeDados.Inicial | tratamento_de_dados.py:90-92 | `condutividade_inicial` is the first reading, and it is absent only for an empty table. |
| TratamentoDeDados.Final | tratamento_de_dados.py:94-96 | `condutividade_final` is the last reading, and it is absent only for an empty table. |
| TratamentoDeDados.Maximo | tratamento_de_dados.py:100 | A column's `.max()` is one of its values and no value exceeds it. It is None (NaN) iff the column is empty. |
| TratamentoDeDados.Maxima | tratamento_de_dados.py:98-100 | `condutividade_maxima` is one of the readings, at least the first and the last. |
| TratamentoDeDados.Normalizar | tratamento_de_dados.py:102-107 | The normalised series fails on an empty table and on a flat signal (c0 == cinf). Otherwise it is as long as the table, starts at 0 and ends at 1. Mapping each entry back through c0 + n·(cinf − c0) gives that row's reading. |
| TratamentoDeDados.NormalizarMonotona | tratamento_de_dados.py:103-107 | Normalising keeps the order of the readings when the signal rises and reverses it when the signal falls. |
| TratamentoDeDados.Condutivimetro.constructor | tratamento_de_dados.py:13-17 | After construction the identity fields are those of the base name's search. The rows are the CSV rows. The treated original is their treatment, and the working table equals the treated original. |
| TratamentoDeDados.Condutivimetro.ObterArquivo | tratamento_de_dados.py:135-141 | If the base name contains a match, it is stored along with groups 1, 2 and 4. Otherwise nothing is set. |
| TratamentoDeDados.Condutivimetro.ObterIdentificacao | tratamento_de_dados.py:143-146 | Sets the label, group number and electrode number from groups 1, 2 and 4 of the stored name. Group 3 is ignored. |
| TratamentoDeDados.Condutivimetro.ObterBaseDeDados | tratamento_de_dados.py:148-149 | The original table is the file's rows. |
| TratamentoDeDados.Condutivimetro.TratarBaseDeDados | tratamento_de_dados.py:151-161 | The treated original is the first four columns with date and time merged into `horario`. The working table is a copy of it. |
| TratamentoDeDados.Condutivimetro.Prefixo | tratamento_de_dados.py:28-29 | `prefixo` is group 1 capitalised, and it exists iff group 1 was stored. |
| TratamentoDeDados.Condutivimetro.Eletrodo | tratamento_de_dados.py:35-41 | `eletrodo` is `eletrodo_` followed by the stored group 4, and it exists iff group 4 was stored. |
| TratamentoDeDados.Condutivimetro.NumeroDeObservacoes | tratamento_de_dados.py:62-64 | `numero_de_observacoes` is the number of readings in the working table. The sampling interval exists iff there are at least two. |
| TratamentoDeDados.Condutivimetro.ResetarDadosComoEscrito | tratamento_de_dados.py:132-133 | The reset always fails with AttributeError, because `dados_tratados` is a property without a setter. |
| TratamentoDeDados.Condutivimetro.ResetarDados | tratamento_de_dados.py:132-133 | The corrected reset makes the working table the treated original again. |
| TratamentoDeDados.IdentidadeReator | tratamento_de_dados.py:28-37 | For `reator_01_el_02.csv` the stored fields are `reator`, `01` and `02`. `prefixo` is `Reator` and `eletrodo` is `eletrodo_02`. |
| TratamentoDeDados.ExemploReatorIdentidade | tratamento_de_dados.py:13-37 | A probe built from any path whose base name is `reator_01_el_02.csv` reports `Reator`, `01` and `eletrodo_02`. |
| TratamentoDeDados.ExemploReatorSerie | tratamento_de_dados.py:78-107 | Five readings one minute apart give an interval of 60 and the time axis 0, 60, 120, 180, 240. The normalised series has five entries, from 0 to 1. |

## Left out

- File and CSV reading (`open`, `pd.read_csv` with its encoding, separator and decimal comma): the log is given as its sequence of lines, and the probe's file as its parsed rows.
- The conversions `astype(int)`/`astype(float)` (leitura_outputlog.py:21-22, tratamento_de_dados.py:169-175): these parse strings into numbers inside library code.
- `datetime.strptime` (tratamento_de_dados.py:164-166): dates and times are given already as whole seconds. Calendar validation is not modelled.
- Columns beyond the fourth in the probe's CSV: the model's rows carry only the first four.
- `temperatura_media`, `imprimir_relatorio` and the `strftime` accessors `data`, `horario_de_inicio` and `horario_de_termino`: these are floating-point means and text formatting for a printed report.
- `dados_tratados_normalizados` (tratamento_de_dados.py:56-60): a table assembled from `tempo` and the normalised series, which are modelled.
- All plotting (matplotlib), and the columns' conversion to numbers after line 18.
- Unicode: `\w`, `\d`, `str.isspace`, `str.split()` and `str.capitalize()` are modelled on ASCII only. Python applies them to all of Unicode.
- Floating point: conductivities are `real`. IEEE rounding in the normalisation is not modelled.
- The pandas index: positional and starting at 0, as nothing in the file trims the table.
- TratamentoDeDados.NomeDoArquivo: only POSIX paths are modelled (`posixpath.basename`, which cuts at the last `/`). On Windows `ntpath.basename` also cuts at `\` and after a drive prefix such as `C:`, so `_arquivo` would differ for a path like `C:\dados\reator_01_el_02.csv`.
- TratamentoDeDados.Intervalo: with fewer than two rows Python raises a KeyError. The model gives None.
- TratamentoDeDados.Inicial and TratamentoDeDados.Final: on an empty table Python raises an IndexError. The model gives None.
- TratamentoDeDados.Normalizar: on a flat signal numpy returns NaN or infinity with a warning. The model reports this as the error value `SinalPlano` instead of producing those values. An empty table raises in Python, and the model gives `TabelaVazia`.
- TratamentoDeDados.Condutivimetro.ObterArquivo: an attribute Python never assigns is modelled as `None`. Reading such an attribute would raise an AttributeError in Python, and the model does not represent that error.

## Findings

| source | as written | input that shows it | evidently intended | confidence | as-written member | corrected member |
|---|---|---|---|---|---|---|
| tratamento_de_dados.py:132-133 | `resetar_dados` assigns to `self.dados_tratados`, a read-only property, so every call raises AttributeError. Even with a setter, it would copy the raw `dados_originais` (all CSV columns, date and time as text) instead of the treated table. | any probe, e.g. one built from `reator_01_el_02.csv`, on its first `resetar_dados()` | make the working table a copy of the treated original `_dados_tratados_originais` | high, not executed | TratamentoDeDados.Condutivimetro.ResetarDadosComoEscrito | TratamentoDeDados.Condutivimetro.ResetarDados |
