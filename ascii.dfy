/**
 * Character classes and string helpers of Python 3, restricted to ASCII.
 * Python's `str.isspace`, `\d`, `\w`, `str.strip`, `str.split()` and
 * `str.capitalize` are Unicode-aware; this model approximates them by their
 * behaviour on the ASCII range.
 */
module Ascii {

  /** `str.isspace()` on ASCII: TAB, LF, VT, FF, CR, the separators 0x1C-0x1F and SPACE. */
  predicate IsSpace(c: char) {
    (0x09 <= c as int <= 0x0D) || (0x1C <= c as int <= 0x1F) || c == ' '
  }

  /** The regular-expression class `\d` on ASCII. */
  predicate IsDigit(c: char) {
    '0' <= c <= '9'
  }

  predicate IsUpper(c: char) {
    'A' <= c <= 'Z'
  }

  predicate IsLower(c: char) {
    'a' <= c <= 'z'
  }

  /** The regular-expression class `\w` on ASCII: letters, digits and underscore. */
  predicate IsWordChar(c: char) {
    IsUpper(c) || IsLower(c) || IsDigit(c) || c == '_'
  }

  function ToUpper(c: char): (r: char)
    ensures IsLower(c) ==> IsUpper(r)
    ensures !IsLower(c) ==> r == c
  {
    if IsLower(c) then (c as int - 'a' as int + 'A' as int) as char else c
  }

  function ToLower(c: char): (r: char)
    ensures IsUpper(c) ==> IsLower(r)
    ensures !IsUpper(c) ==> r == c
  {
    if IsUpper(c) then (c as int - 'A' as int + 'a' as int) as char else c
  }

  /** Every character of `s` lower-cased. */
  function LowerAll(s: string): (r: string)
    ensures |r| == |s|
    ensures forall i :: 0 <= i < |s| ==> r[i] == ToLower(s[i])
  {
    if s == [] then [] else [ToLower(s[0])] + LowerAll(s[1..])
  }

  /** `str.capitalize()`: first character upper-cased, all others lower-cased. */
  function Capitalize(s: string): (r: string)
    ensures |r| == |s|
    ensures s != [] ==> !IsLower(r[0]) && ToLower(r[0]) == ToLower(s[0])
    ensures forall i :: 1 <= i < |s| ==> !IsUpper(r[i]) && r[i] == ToLower(s[i])
  {
    if s == [] then [] else [ToUpper(s[0])] + LowerAll(s[1..])
  }

  /** Drops the leading whitespace of `s`. */
  function TrimStart(s: string): (r: string)
    ensures |r| <= |s|
    ensures r == [] || !IsSpace(r[0])
  {
    if s != [] && IsSpace(s[0]) then TrimStart(s[1..]) else s
  }

  /** Drops the trailing whitespace of `s`. */
  function TrimEnd(s: string): (r: string)
    ensures |r| <= |s|
  {
    if s != [] && IsSpace(s[|s| - 1]) then TrimEnd(s[..|s| - 1]) else s
  }

  /** What `TrimStart` drops is exactly the leading whitespace: the result is a
      suffix of `s`, everything before it is whitespace, and it does not start
      with whitespace. */
  lemma {:induction false} TrimStartCaracterizado(s: string)
    ensures var r := TrimStart(s);
      && r == s[|s| - |r|..]
      && (forall i :: 0 <= i < |s| - |r| ==> IsSpace(s[i]))
      && (r == [] || !IsSpace(r[0]))
  {
    if s != [] && IsSpace(s[0]) {
      TrimStartCaracterizado(s[1..]);
    }
  }

  /** What `TrimEnd` drops is exactly the trailing whitespace: the result is a
      prefix of `s`, everything after it is whitespace, and it does not end
      with whitespace. */
  lemma {:induction false} TrimEndCaracterizado(s: string)
    ensures var r := TrimEnd(s);
      && r == s[..|r|]
      && (forall i :: |r| <= i < |s| ==> IsSpace(s[i]))
      && (r == [] || !IsSpace(r[|r| - 1]))
  {
    if s != [] && IsSpace(s[|s| - 1]) {
      TrimEndCaracterizado(s[..|s| - 1]);
    }
  }

  /** `str.strip()` with no argument. */
  function Strip(s: string): string {
    TrimEnd(TrimStart(s))
  }

  /** Length of the run of non-whitespace characters at the front of `s`. */
  function TokenLength(s: string): (n: nat)
    ensures n <= |s|
    ensures forall i :: 0 <= i < n ==> !IsSpace(s[i])
    ensures n == |s| || IsSpace(s[n])
  {
    if s == [] || IsSpace(s[0]) then 0 else 1 + TokenLength(s[1..])
  }

  /** `str.split()` with no argument: the maximal runs of non-whitespace characters, in order. */
  function Split(s: string): (r: seq<string>)
    ensures forall k :: 0 <= k < |r| ==> r[k] != []
    ensures forall k, i :: 0 <= k < |r| && 0 <= i < |r[k]| ==> !IsSpace(r[k][i])
    decreases |s|
  {
    var t := TrimStart(s);
    if t == [] then []
    else
      var n := TokenLength(t);
      [t[..n]] + Split(t[n..])
  }

  /** A single run of non-whitespace characters splits into itself. */
  lemma SplitPalavra(w: string)
    requires w != [] && forall i :: 0 <= i < |w| ==> !IsSpace(w[i])
    ensures Split(w) == [w]
  {
    assert TrimStart(w) == w;
    TokenLengthPalavra(w);
    assert w[..|w|] == w && w[|w|..] == [];
    assert Split(w) == [w] + Split([]);
  }

  lemma {:induction false} TokenLengthPalavra(w: string)
    requires forall i :: 0 <= i < |w| ==> !IsSpace(w[i])
    ensures TokenLength(w) == |w|
  {
    if w != [] {
      TokenLengthPalavra(w[1..]);
    }
  }

  lemma {:induction false} TokenLengthAteEspaco(a: string, c: char, b: string)
    requires IsSpace(c)
    ensures TokenLength(a + [c] + b) == TokenLength(a)
  {
    if a == [] {
      assert (a + [c] + b)[0] == c;
    } else {
      assert (a + [c] + b)[0] == a[0];
      assert (a + [c] + b)[1..] == a[1..] + [c] + b;
      TokenLengthAteEspaco(a[1..], c, b);
    }
  }

  /** A string has no tokens exactly when all of it is whitespace. */
  lemma SplitVazio(s: string)
    ensures Split(s) == [] <==> forall i :: 0 <= i < |s| ==> IsSpace(s[i])
  {
    TrimStartCaracterizado(s);
    var r := TrimStart(s);
    if r != [] {
      assert s[|s| - |r|] == r[0];
    }
  }

  /** A whitespace character separates: the tokens of `a + [c] + b` are those
      of `a` followed by those of `b`. With SplitPalavra and SplitVazio this
      fixes `str.split()` on every string. */
  lemma {:induction false} SplitEspaco(a: string, c: char, b: string)
    requires IsSpace(c)
    ensures Split(a + [c] + b) == Split(a) + Split(b)
    decreases |a|, 1
  {
    var x := a + [c] + b;
    if a == [] {
      assert x[1..] == b;
      assert TrimStart(x) == TrimStart(b);
    } else if IsSpace(a[0]) {
      assert x[1..] == a[1..] + [c] + b;
      assert Split(x) == Split(x[1..]);
      assert Split(a) == Split(a[1..]);
      SplitEspaco(a[1..], c, b);
    } else {
      SplitEspacoPalavra(a, c, b);
    }
  }

  /** SplitEspaco when `a` starts with a token: that token is also the first of `a + [c] + b`. */
  lemma {:induction false} SplitEspacoPalavra(a: string, c: char, b: string)
    requires IsSpace(c) && a != [] && !IsSpace(a[0])
    ensures Split(a + [c] + b) == Split(a) + Split(b)
    decreases |a|, 0
  {
    var x := a + [c] + b;
    var m := TokenLength(a);
    TokenLengthAteEspaco(a, c, b);
    assert x[..m] == a[..m];
    assert x[m..] == a[m..] + [c] + b;
    SplitEspaco(a[m..], c, b);
  }

  /** Python's slice `xs[0:-k]` for k >= 1: all but the last k items, empty when there are no more than k. */
  function DropLast<T>(xs: seq<T>, k: nat): (r: seq<T>)
    requires k >= 1
    ensures r <= xs
    ensures |r| == if |xs| <= k then 0 else |xs| - k
  {
    if |xs| <= k then [] else xs[..|xs| - k]
  }
}
