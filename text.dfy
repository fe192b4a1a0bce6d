/** The handful of Python string operations the model relies on, written out:
    prefix tests, `str.replace`, `"".join`, `str.lower`, `str.strip`, `str(int)`,
    `int(str)` and the `repr` of a list of names. */
module Text {
  import opened Wrappers

  predicate StartsWith(s: string, prefix: string) {
    |prefix| <= |s| && s[..|prefix|] == prefix
  }

  /** `pat in s` */
  predicate Contains(s: string, pat: string) {
    exists i | 0 <= i <= |s| :: StartsWith(s[i..], pat)
  }

  /** `s.replace(pat, by)` for a non-empty `pat`: every occurrence, found left to
      right without overlap, is replaced. */
  function Replace(s: string, pat: string, repl: string): string
    requires pat != ""
    decreases |s|
  {
    if |s| < |pat| then s
    else if StartsWith(s, pat) then repl + Replace(s[|pat|..], pat, repl)
    else [s[0]] + Replace(s[1..], pat, repl)
  }

  /** A string in which `pat` does not occur is left as it is. */
  lemma {:induction false} ReplaceWithoutOccurrence(s: string, pat: string, repl: string)
    requires pat != ""
    requires !Contains(s, pat)
    ensures Replace(s, pat, repl) == s
    decreases |s|
  {
    if |s| >= |pat| {
      assert s[0..] == s;
      assert !StartsWith(s, pat);
      assert !Contains(s[1..], pat) by {
        forall i | 0 <= i <= |s[1..]|
          ensures !StartsWith(s[1..][i..], pat)
        {
          assert s[1..][i..] == s[i + 1..];
        }
      }
      ReplaceWithoutOccurrence(s[1..], pat, repl);
    }
  }

  /** Any number of leading copies of `pat` are all removed, not only the first. */
  lemma {:induction false} ReplaceRemovesLeadingCopies(k: nat, pat: string, rest: string)
    requires pat != ""
    ensures Replace(Repeat(pat, k) + rest, pat, "") == Replace(rest, pat, "")
    decreases k
  {
    if k > 0 {
      var s := Repeat(pat, k) + rest;
      assert s == pat + (Repeat(pat, k - 1) + rest);
      assert StartsWith(s, pat);
      assert s[|pat|..] == Repeat(pat, k - 1) + rest;
      assert Replace(s, pat, "") == "" + Replace(s[|pat|..], pat, "");
      assert "" + Replace(s[|pat|..], pat, "") == Replace(s[|pat|..], pat, "");
      ReplaceRemovesLeadingCopies(k - 1, pat, rest);
    } else {
      assert Repeat(pat, k) + rest == rest;
    }
  }

  function Repeat(s: string, k: nat): string {
    if k == 0 then "" else s + Repeat(s, k - 1)
  }

  /** `"".join(parts)` */
  function Concat(parts: seq<string>): string {
    if parts == [] then "" else Concat(parts[..|parts| - 1]) + parts[|parts| - 1]
  }

  /** `sep.join(parts)` */
  function Join(sep: string, parts: seq<string>): string {
    if parts == [] then ""
    else if |parts| == 1 then parts[0]
    else Join(sep, parts[..|parts| - 1]) + sep + parts[|parts| - 1]
  }

  /** The `repr` of a Python list of names, `['a', "b'c"]`. */
  function ListRepr(names: seq<string>): string {
    "[" + Join(", ", Quoted(names)) + "]"
  }

  function Quoted(names: seq<string>): (r: seq<string>)
    ensures |r| == |names|
    ensures forall k | 0 <= k < |names| :: r[k] == StrRepr(names[k])
  {
    seq(|names|, k requires 0 <= k < |names| => StrRepr(names[k]))
  }

  /** The quote `str.__repr__` chooses: a double quote only for a string that
      holds a single quote and no double quote. */
  function ReprQuote(s: string): char {
    if '\'' in s && '"' !in s then '"' else '\''
  }

  const HexDigits: string := "0123456789abcdef"

  /** Characters `repr` writes as `\xhh`: the C0 and C1 controls, DEL, the
      no-break space and the soft hyphen. */
  predicate HexEscaped(c: char) {
    c < ' ' || ('\U{7F}' <= c <= '\U{A0}') || c == '\U{AD}'
  }

  /** One character inside a `repr` quoted with `q`. */
  function EscapedChar(c: char, q: char): string {
    if c == q || c == '\\' then ['\\', c]
    else if c == '\t' then "\\t"
    else if c == '\n' then "\\n"
    else if c == '\r' then "\\r"
    else if HexEscaped(c) then "\\x" + [HexDigits[c as int / 16], HexDigits[c as int % 16]]
    else [c]
  }

  function Escaped(s: string, q: char): string {
    if s == [] then "" else Escaped(s[..|s| - 1], q) + EscapedChar(s[|s| - 1], q)
  }

  /** `repr(s)` of a Python string. */
  function StrRepr(s: string): (r: string)
    ensures |r| >= 2 && r[0] == ReprQuote(s) && r[|r| - 1] == ReprQuote(s)
  {
    [ReprQuote(s)] + Escaped(s, ReprQuote(s)) + [ReprQuote(s)]
  }

  /** A character `repr` writes as itself inside quotes `q`. */
  predicate Verbatim(c: char, q: char) {
    c != q && c != '\\' && !HexEscaped(c)
  }

  /** Text made only of characters written as themselves is copied unchanged. */
  lemma {:induction false} EscapedVerbatim(s: string, q: char)
    requires forall k | 0 <= k < |s| :: Verbatim(s[k], q)
    ensures Escaped(s, q) == s
    decreases |s|
  {
    if s != [] {
      EscapedVerbatim(s[..|s| - 1], q);
      assert s == s[..|s| - 1] + [s[|s| - 1]];
    }
  }

  /** A name without quotes, backslashes or control characters is shown between
      single quotes, as written. */
  lemma StrReprPlain(s: string)
    requires forall k | 0 <= k < |s| :: s[k] != '"' && Verbatim(s[k], '\'')
    ensures StrRepr(s) == "'" + s + "'"
  {
    EscapedVerbatim(s, '\'');
  }

  /** A name with a single quote and no double quote is shown between double
      quotes, its single quotes unescaped: `"O'Brien"`. */
  lemma StrReprApostrophe(s: string)
    requires '\'' in s
    requires forall k | 0 <= k < |s| :: Verbatim(s[k], '"')
    ensures StrRepr(s) == "\"" + s + "\""
  {
    EscapedVerbatim(s, '"');
  }

  /** Replacing single quotes one character further along. */
  lemma {:induction false} ReplaceApostropheSnoc(s: string, c: char)
    ensures Replace(s + [c], "'", "\\'") == Replace(s, "'", "\\'") + (if c == '\'' then "\\'" else [c])
    decreases |s|
  {
    var t := s + [c];
    assert StartsWith(t, "'") <==> t[0] == '\'';
    if s == [] {
      assert t[1..] == [];
    } else {
      assert StartsWith(s, "'") <==> s[0] == '\'';
      assert t[0] == s[0] && t[1..] == s[1..] + [c];
      ReplaceApostropheSnoc(s[1..], c);
    }
  }

  /** Inside single quotes, text whose only escaped character is the single
      quote is escaped by putting a backslash before each single quote. */
  lemma {:induction false} EscapedApostrophes(s: string)
    requires forall k | 0 <= k < |s| :: s[k] == '\'' || Verbatim(s[k], '\'')
    ensures Escaped(s, '\'') == Replace(s, "'", "\\'")
    decreases |s|
  {
    if s != [] {
      var n := |s| - 1;
      EscapedApostrophes(s[..n]);
      ReplaceApostropheSnoc(s[..n], s[n]);
      assert s[..n] + [s[n]] == s;
    }
  }

  /** A name holding both quotes keeps single quotes and escapes its own
      single quotes with a backslash, as in `'a\'"b'`. */
  lemma StrReprBothQuotes(s: string)
    requires '\'' in s && '"' in s
    requires forall k | 0 <= k < |s| :: s[k] == '\'' || Verbatim(s[k], '\'')
    ensures StrRepr(s) == "'" + Replace(s, "'", "\\'") + "'"
  {
    EscapedApostrophes(s);
  }

  /** Characters for which Python's `str.isspace` holds (and which `\s` matches). */
  predicate IsSpace(c: char) {
    ('\t' <= c <= '\r') || ('\U{1C}' <= c <= '\U{1F}') || c == ' ' || c == '\U{85}' ||
    c == '\U{A0}' || c == '\U{1680}' || ('\U{2000}' <= c <= '\U{200A}') ||
    c == '\U{2028}' || c == '\U{2029}' || c == '\U{202F}' || c == '\U{205F}' || c == '\U{3000}'
  }

  function LowerChar(c: char): char {
    if 'A' <= c <= 'Z' then (c as int + 32) as char else c
  }

  /** `s.lower()`, for the ASCII letters. */
  function Lower(s: string): (r: string)
    ensures |r| == |s|
  {
    seq(|s|, i requires 0 <= i < |s| => LowerChar(s[i]))
  }

  function TrimStart(s: string): string {
    if s != [] && IsSpace(s[0]) then TrimStart(s[1..]) else s
  }

  function TrimEnd(s: string): string {
    if s != [] && IsSpace(s[|s| - 1]) then TrimEnd(s[..|s| - 1]) else s
  }

  /** `s.strip()` */
  function Strip(s: string): string {
    TrimEnd(TrimStart(s))
  }

  predicate IsDigit(c: char) {
    '0' <= c <= '9'
  }

  predicate AllDigits(s: string) {
    forall i | 0 <= i < |s| :: IsDigit(s[i])
  }

  function DigitChar(d: nat): char
    requires d < 10
  {
    ('0' as int + d) as char
  }

  function DigitValue(c: char): nat
    requires IsDigit(c)
  {
    c as int - '0' as int
  }

  /** `str(n)` for a non-negative integer: a non-empty run of decimal digits. */
  function NatToString(n: nat): (r: string)
    ensures |r| > 0 && AllDigits(r)
    decreases n
  {
    if n < 10 then [DigitChar(n)] else NatToString(n / 10) + [DigitChar(n % 10)]
  }

  /** `str(i)` */
  function IntToString(i: int): string {
    if i < 0 then "-" + NatToString(-i) else NatToString(i)
  }

  function ParseDigits(s: string): nat
    requires |s| > 0 && AllDigits(s)
  {
    if |s| == 1 then DigitValue(s[0])
    else ParseDigits(s[..|s| - 1]) * 10 + DigitValue(s[|s| - 1])
  }

  /** `int(s)` for surrounding white space, an optional sign and ASCII digits;
      `None` where Python raises `ValueError`. */
  function ParseInt(s: string): Option<int> {
    var t := Strip(s);
    if |t| > 1 && (t[0] == '-' || t[0] == '+') && AllDigits(t[1..]) then
      Some((if t[0] == '-' then -1 else 1) * ParseDigits(t[1..]))
    else if |t| > 0 && AllDigits(t) then Some(ParseDigits(t))
    else None
  }

  lemma {:induction false} ParseDigitsOfNatToString(n: nat)
    ensures ParseDigits(NatToString(n)) == n
    decreases n
  {
    if n >= 10 {
      var p := NatToString(n / 10);
      var s := p + [DigitChar(n % 10)];
      assert NatToString(n) == s;
      assert s[..|s| - 1] == p;
      ParseDigitsOfNatToString(n / 10);
    }
  }

  /** `prefix + rest` starts with `prefix`, and dropping it gives `rest` back. */
  lemma PrefixOf(prefix: string, rest: string)
    ensures StartsWith(prefix + rest, prefix)
    ensures (prefix + rest)[|prefix|..] == rest
  {
    assert (prefix + rest)[..|prefix|] == prefix;
  }

  lemma StripNoOuterSpace(s: string)
    requires s != [] && !IsSpace(s[0]) && !IsSpace(s[|s| - 1])
    ensures Strip(s) == s
  {
  }

  /** `int(str(i)) == i` */
  lemma ParseIntOfIntToString(i: int)
    ensures ParseInt(IntToString(i)) == Some(i)
  {
    var s := IntToString(i);
    if i < 0 {
      var d := NatToString(-i);
      assert s == "-" + d;
      assert s[1..] == d;
      assert s[|s| - 1] == d[|d| - 1];
      StripNoOuterSpace(s);
      ParseDigitsOfNatToString(-i);
    } else {
      StripNoOuterSpace(s);
      ParseDigitsOfNatToString(i);
    }
  }
}
