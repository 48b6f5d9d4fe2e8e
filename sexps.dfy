/** S-expression data as the `.ensime` reader produces them, and the text Python's `str` gives a
    datum once `unwrap_if_sexp_symbol` has turned a symbol into its name. */
module Sexps {

  /** A parsed datum: a symbol such as `:scala-version`, a string literal, an integer, or a list. */
  datatype Sexp =
    | Sym(name: string)
    | Str(text: string)
    | Int(value: int)
    | List(items: seq<Sexp>)

  function DigitChar(d: nat): char
    requires d < 10
  {
    "0123456789"[d]
  }

  /** Decimal digits of a natural number, most significant first. */
  function NatToString(n: nat): (r: string)
    ensures |r| >= 1
    ensures forall i :: 0 <= i < |r| ==> '0' <= r[i] <= '9'
  {
    if n < 10 then [DigitChar(n)] else NatToString(n / 10) + [DigitChar(n % 10)]
  }

  /** Python's `str` of an integer. */
  function IntToString(i: int): string
  {
    if i < 0 then "-" + NatToString(-i) else NatToString(i)
  }

  /** Python's `repr` of a datum; a list shows as `[a, b]` and a symbol as `Symbol('name')`. */
  function Repr(x: Sexp): string
    decreases x, 1
  {
    match x
    case Sym(n) => "Symbol('" + n + "')"
    case Str(s) => "'" + s + "'"
    case Int(i) => IntToString(i)
    case List(xs) => "[" + ReprItems(xs, 0) + "]"
  }

  /** The `repr`s of `xs[i..]`, separated by `", "`. */
  function ReprItems(xs: seq<Sexp>, i: nat): string
    decreases List(xs), 0, |xs| - i
  {
    if i >= |xs| then ""
    else (if i > 0 then ", " else "") + Repr(xs[i]) + ReprItems(xs, i + 1)
  }

  /** `unwrap_if_sexp_symbol`: a symbol becomes the Python string it names; any other datum is
      returned as it is. The result is never a symbol, which Python could not use as a key. */
  function Unwrap(d: Sexp): (r: Sexp)
    ensures !r.Sym?
  {
    if d.Sym? then Str(d.name) else d
  }

  /** Python's `str` of a datum: a string is its own text; everything else shows as its `repr`. */
  function PyStr(x: Sexp): string
  {
    if x.Str? then x.text else Repr(x)
  }

  /** `s.lstrip(':')`: the longest suffix of `s` that does not start with a colon. */
  function LStripColons(s: string): (r: string)
    ensures |r| <= |s| && r == s[|s| - |r|..]
    ensures r == [] || r[0] != ':'
    ensures forall i :: 0 <= i < |s| - |r| ==> s[i] == ':'
  {
    if s != [] && s[0] == ':' then LStripColons(s[1..]) else s
  }

  /** The dictionary key made of a datum: the Python text of the unwrapped datum, leading colons removed. */
  function NormKey(d: Sexp): string
  {
    LStripColons(PyStr(Unwrap(d)))
  }

  /** A symbol's key is its name with every leading colon removed, so `:scala-version` gives
      `scala-version`; the key never starts with a colon, and only colons were dropped. */
  lemma SymbolKey(n: string)
    ensures NormKey(Sym(n)) == LStripColons(n)
    ensures var k := NormKey(Sym(n));
      && |k| <= |n| && k == n[|n| - |k|..]
      && (k == [] || k[0] != ':')
      && forall i :: 0 <= i < |n| - |k| ==> n[i] == ':'
  {
  }

  /** A string datum gives the same key as a symbol of the same name. */
  lemma StringAndSymbolKeysAgree(n: string)
    ensures NormKey(Str(n)) == NormKey(Sym(n))
  {
  }

  /** A keyword symbol `:name`, whose name does not itself start with a colon, gives the key
      `name`. */
  lemma KeywordKey(name: string)
    requires name == [] || name[0] != ':'
    ensures NormKey(Sym(":" + name)) == name
  {
    assert (":" + name)[1..] == name;
  }
}
