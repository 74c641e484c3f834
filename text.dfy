/** The handful of Python string operations the instrument code relies on:
  * `str.title()`, the substring test `pat in s`, `s.split()[0]` and
  * `float(s)`. Letters and digits are the ASCII ones; white space is
  * Python's. */
module Text {
  import opened Results

  predicate IsUpper(c: char) { 'A' <= c <= 'Z' }
  predicate IsLower(c: char) { 'a' <= c <= 'z' }
  /** A cased character in the sense of `str.title()`. */
  predicate IsLetter(c: char) { IsUpper(c) || IsLower(c) }
  predicate IsDigit(c: char) { '0' <= c <= '9' }
  /** The characters `str.split()` and `str.strip()` treat as white space,
    * those `str.isspace()` accepts: `\t` to `\r`, the separators `\x1c`
    * to `\x1f`, the space, `\x85`, the no-break space and the Unicode
    * spaces and line and paragraph separators. */
  predicate IsSpace(c: char) {
    var n := c as int;
    9 <= n <= 13 || 28 <= n <= 32 || n == 0x85 || n == 0xA0 || n == 0x1680
    || 0x2000 <= n <= 0x200A || n == 0x2028 || n == 0x2029 || n == 0x202F || n == 0x205F || n == 0x3000
  }

  function ToUpper(c: char): char { if IsLower(c) then (c as int - 32) as char else c }
  function ToLower(c: char): char { if IsUpper(c) then (c as int + 32) as char else c }

  // ---------------------------------------------------------------- title

  /** `str.title()`: a letter is upper-cased when it starts a word (the
    * character before it is not a letter) and lower-cased otherwise. */
  function Title(s: string): string {
    seq(|s|, i requires 0 <= i < |s| =>
      if i > 0 && IsLetter(s[i - 1]) then ToLower(s[i]) else ToUpper(s[i]))
  }

  lemma CaseKeepsLetter(c: char)
    ensures IsLetter(ToUpper(c)) == IsLetter(c) && IsLetter(ToLower(c)) == IsLetter(c)
    ensures ToUpper(ToUpper(c)) == ToUpper(c) && ToLower(ToLower(c)) == ToLower(c)
  {
  }

  /** Title-casing keeps word boundaries, so it is idempotent. */
  lemma TitleIdempotent(s: string)
    ensures Title(Title(s)) == Title(s)
  {
    var t := Title(s);
    forall i | 0 <= i < |s|
      ensures Title(t)[i] == t[i]
    {
      CaseKeepsLetter(s[i]);
      if i > 0 {
        CaseKeepsLetter(s[i - 1]);
        var j := i - 1;
        assert t[j] == (if j > 0 && IsLetter(s[j - 1]) then ToLower(s[j]) else ToUpper(s[j]));
        assert IsLetter(t[i - 1]) == IsLetter(s[i - 1]);
      }
      assert Title(t)[i] == (if i > 0 && IsLetter(t[i - 1]) then ToLower(t[i]) else ToUpper(t[i]));
    }
  }

  // ------------------------------------------------------------ substring

  /** `pat` occurs in `s` starting at index `i`. */
  predicate OccursAt(s: string, pat: string, i: int) {
    0 <= i && i + |pat| <= |s| && s[i..i + |pat|] == pat
  }

  /** Python's `pat in s`, scanning from the left. */
  predicate Contains(s: string, pat: string)
    decreases |s|
  {
    |pat| <= |s| && (s[..|pat|] == pat || (s != [] && Contains(s[1..], pat)))
  }

  /** The scan finds `pat` exactly when it occurs somewhere in `s`. */
  lemma {:induction false} ContainsIffOccurs(s: string, pat: string)
    ensures Contains(s, pat) <==> exists i :: OccursAt(s, pat, i)
    decreases |s|
  {
    if Contains(s, pat) {
      if s[..|pat|] == pat {
        assert OccursAt(s, pat, 0);
      } else {
        ContainsIffOccurs(s[1..], pat);
        var j :| OccursAt(s[1..], pat, j);
        assert s[1..][j..j + |pat|] == s[j + 1..j + 1 + |pat|];
        assert OccursAt(s, pat, j + 1);
      }
    }
    if exists i :: OccursAt(s, pat, i) {
      var i :| OccursAt(s, pat, i);
      if i == 0 {
        assert s[..|pat|] == pat;
      } else {
        assert s[1..][i - 1..i - 1 + |pat|] == s[i..i + |pat|];
        assert OccursAt(s[1..], pat, i - 1);
        ContainsIffOccurs(s[1..], pat);
      }
    }
  }

  /** Any occurrence, wherever it is, makes `pat in s` true. */
  lemma ContainsAt(s: string, pat: string, i: int)
    requires OccursAt(s, pat, i)
    ensures Contains(s, pat)
  {
    ContainsIffOccurs(s, pat);
  }

  /** `pat in s` is false when `pat` occurs nowhere. */
  lemma NotContains(s: string, pat: string)
    requires forall i :: !OccursAt(s, pat, i)
    ensures !Contains(s, pat)
  {
    ContainsIffOccurs(s, pat);
  }

  // ---------------------------------------------------------- split()[0]

  /** `s.lstrip()`. */
  function TrimStart(s: string): string
    decreases |s|
  {
    if s != [] && IsSpace(s[0]) then TrimStart(s[1..]) else s
  }

  /** `s.rstrip()`. */
  function TrimEnd(s: string): string
    decreases |s|
  {
    if s != [] && IsSpace(s[|s| - 1]) then TrimEnd(s[..|s| - 1]) else s
  }

  /** `lstrip` drops exactly the leading white space: what remains is a
    * suffix that is empty or starts with a non-space character. */
  lemma {:induction false} TrimStartSpec(s: string)
    ensures |TrimStart(s)| <= |s| && TrimStart(s) == s[|s| - |TrimStart(s)|..]
    ensures forall i :: 0 <= i < |s| - |TrimStart(s)| ==> IsSpace(s[i])
    ensures TrimStart(s) != [] ==> !IsSpace(TrimStart(s)[0])
    decreases |s|
  {
    if s != [] && IsSpace(s[0]) {
      TrimStartSpec(s[1..]);
    }
  }

  /** `rstrip` drops exactly the trailing white space: what remains is a
    * prefix that is empty or ends with a non-space character. */
  lemma {:induction false} TrimEndSpec(s: string)
    ensures |TrimEnd(s)| <= |s| && TrimEnd(s) == s[..|TrimEnd(s)|]
    ensures forall i :: |TrimEnd(s)| <= i < |s| ==> IsSpace(s[i])
    ensures TrimEnd(s) != [] ==> !IsSpace(TrimEnd(s)[|TrimEnd(s)| - 1])
    decreases |s|
  {
    if s != [] && IsSpace(s[|s| - 1]) {
      TrimEndSpec(s[..|s| - 1]);
      assert s[..|s| - 1][..|TrimEnd(s)|] == s[..|TrimEnd(s)|];
    }
  }

  /** The longest prefix of `s` without white space. */
  function Word(s: string): string
    decreases |s|
  {
    if s == [] || IsSpace(s[0]) then [] else [s[0]] + Word(s[1..])
  }

  /** `Word` is a prefix without white space that stops only at white space
    * or at the end. */
  lemma {:induction false} WordSpec(s: string)
    ensures |Word(s)| <= |s| && Word(s) == s[..|Word(s)|]
    ensures forall i :: 0 <= i < |Word(s)| ==> !IsSpace(Word(s)[i])
    ensures |Word(s)| < |s| ==> IsSpace(s[|Word(s)|])
    decreases |s|
  {
    if s != [] && !IsSpace(s[0]) {
      WordSpec(s[1..]);
      assert Word(s) == [s[0]] + Word(s[1..]);
    }
  }

  /** `s.split()[0]`; `None` where Python raises IndexError because `s` is
    * blank. */
  function FirstToken(s: string): Option<string> {
    var t := TrimStart(s);
    if t == [] then None else Some(Word(t))
  }

  /** The token is the first maximal run of non-space characters, and there
    * is none exactly when `s` is blank. */
  lemma FirstTokenSpec(s: string)
    ensures FirstToken(s).None? <==> forall i :: 0 <= i < |s| ==> IsSpace(s[i])
    ensures FirstToken(s).Some? ==> exists k ::
      0 <= k < |s| && (forall i :: 0 <= i < k ==> IsSpace(s[i])) &&
      OccursAt(s, FirstToken(s).value, k) && FirstToken(s).value != [] &&
      (forall i :: 0 <= i < |FirstToken(s).value| ==> !IsSpace(FirstToken(s).value[i])) &&
      (k + |FirstToken(s).value| < |s| ==> IsSpace(s[k + |FirstToken(s).value|]))
  {
    TrimStartSpec(s);
    var t := TrimStart(s);
    if t != [] {
      WordSpec(t);
      var w := Word(t);
      var k := |s| - |t|;
      assert s[k..k + |w|] == w;
      assert OccursAt(s, w, k);
      assert w != [] by { assert !IsSpace(t[0]); }
      assert k + |w| < |s| ==> IsSpace(s[k + |w|]) by {
        if k + |w| < |s| { assert s[k + |w|] == t[|w|]; }
      }
    } else {
      forall i | 0 <= i < |s|
        ensures IsSpace(s[i])
      {
      }
    }
  }

  /** A run of non-space characters followed by white space, or by nothing,
    * is the first word. */
  lemma {:induction false} WordOf(a: string, b: string)
    requires forall i :: 0 <= i < |a| ==> !IsSpace(a[i])
    requires b == [] || IsSpace(b[0])
    ensures Word(a + b) == a
    decreases |a|
  {
    if a == [] {
      assert a + b == b;
    } else {
      assert (a + b)[1..] == a[1..] + b;
      WordOf(a[1..], b);
    }
  }

  /** `(a + b).split()[0] == a` when `a` is a non-empty word and `b` starts
    * with white space or is empty. */
  lemma FirstTokenOf(a: string, b: string)
    requires a != [] && forall i :: 0 <= i < |a| ==> !IsSpace(a[i])
    requires b == [] || IsSpace(b[0])
    ensures FirstToken(a + b) == Some(a)
  {
    assert (a + b)[0] == a[0];
    assert TrimStart(a + b) == a + b;
    WordOf(a, b);
  }

  // -------------------------------------------------------------- float()

  function DigitValue(c: char): nat
    requires IsDigit(c)
  {
    c as int - '0' as int
  }

  predicate AllDigits(s: string) { forall i :: 0 <= i < |s| ==> IsDigit(s[i]) }

  /** The number a string of decimal digits spells. */
  function DigitsValue(s: string): nat
    requires AllDigits(s)
    decreases |s|
  {
    if s == [] then 0 else 10 * DigitsValue(s[..|s| - 1]) + DigitValue(s[|s| - 1])
  }

  /** The value of the digits after a decimal point: each digit weighs a
    * tenth of the one before it. */
  function FractionValue(s: string): (v: real)
    requires AllDigits(s)
    ensures 0.0 <= v <= 1.0
    decreases |s|
  {
    if s == [] then 0.0 else (DigitValue(s[0]) as real + FractionValue(s[1..])) / 10.0
  }

  /** `m` times 10 to the power `e`, one factor of ten at a time. */
  function ShiftPoint(m: real, e: int): real
    decreases if e < 0 then -e else e
  {
    if e == 0 then m
    else if e > 0 then ShiftPoint(m * 10.0, e - 1)
    else ShiftPoint(m / 10.0, e + 1)
  }

  /** The index of the first `a` or `b` in `s`, or `|s|`. */
  function FirstOf(s: string, a: char, b: char): (k: nat)
    ensures k <= |s|
    ensures forall i :: 0 <= i < k ==> s[i] != a && s[i] != b
    ensures k < |s| ==> s[k] == a || s[k] == b
    decreases |s|
  {
    if s == [] || s[0] == a || s[0] == b then 0 else 1 + FirstOf(s[1..], a, b)
  }

  /** `digits[.digits]` or `.digits`, with at least one digit. */
  function ParseMantissa(m: string): Option<real> {
    var d := FirstOf(m, '.', '.');
    var whole := m[..d];
    var frac := if d < |m| then m[d + 1..] else [];
    if !AllDigits(whole) || !AllDigits(frac) || (whole == [] && frac == []) then None
    else Some(DigitsValue(whole) as real + FractionValue(frac))
  }

  /** `[+|-]digits`. */
  function ParseExponent(e: string): Option<int> {
    if e != [] && (e[0] == '+' || e[0] == '-') then
      var rest := e[1..];
      if rest == [] || !AllDigits(rest) then None
      else Some(if e[0] == '-' then -(DigitsValue(rest) as int) else DigitsValue(rest))
    else if e == [] || !AllDigits(e) then None
    else Some(DigitsValue(e))
  }

  /** A decimal literal without sign: mantissa and optional exponent. */
  function ParseUnsigned(u: string): Option<real> {
    var k := FirstOf(u, 'e', 'E');
    match ParseMantissa(u[..k])
    case None => None
    case Some(m) =>
      if k == |u| then Some(m)
      else
        match ParseExponent(u[k + 1..])
        case None => None
        case Some(e) => Some(ShiftPoint(m, e))
  }

  /** `float(s)` on decimal literals: surrounding white space, an optional
    * sign, a mantissa and an optional exponent. `None` where Python raises
    * ValueError. */
  function ParseFloat(s: string): Option<real> {
    var t := TrimEnd(TrimStart(s));
    if t == [] then None
    else if t[0] == '-' then
      match ParseUnsigned(t[1..])
      case None => None
      case Some(v) => Some(-v)
    else if t[0] == '+' then ParseUnsigned(t[1..])
    else ParseUnsigned(t)
  }

  /** The ValueError `float(token)` raises on text that is not a number:
    * its class and its message, which quotes `repr(token)`. */
  function ValueErrorText(token: string): string {
    "ValueError(\"could not convert string to float: " + StrRepr(token) + "\")"
  }

  /** The decimal digits of `n`, most significant first. */
  function NatText(n: nat): (s: string)
    ensures s != [] && AllDigits(s)
    decreases n
  {
    var last := ['0' + (n % 10) as char];
    if n < 10 then last else NatText(n / 10) + last
  }

  /** Python's `str` of an int: the digits, after a minus sign when
    * negative. */
  function IntText(i: int): string {
    if i < 0 then "-" + NatText(-i) else NatText(i)
  }

  /** The digits of `n` spell `n` back. */
  lemma {:induction false} NatTextValue(n: nat)
    ensures DigitsValue(NatText(n)) == n
    decreases n
  {
    var s := NatText(n);
    if n >= 10 {
      NatTextValue(n / 10);
      assert s[..|s| - 1] == NatText(n / 10);
    }
  }

  /** `float(str(n))` gives `n` back for every natural number. */
  lemma ParseNatText(n: nat)
    ensures ParseFloat(NatText(n)) == Some(n as real)
  {
    var s := NatText(n);
    assert TrimStart(s) == s;
    assert TrimEnd(s) == s;
    assert FirstOf(s, 'e', 'E') == |s|;
    assert s[..|s|] == s;
    assert FirstOf(s, '.', '.') == |s|;
    NatTextValue(n);
  }

  // ----------------------------------------------------------------- lines

  /** The lines of `s`, each without its `\n`; a last line need not end in
    * one. */
  function Lines(s: string): seq<string>
    decreases |s|
  {
    if s == [] then []
    else
      var k := FirstOf(s, '\n', '\n');
      if k == |s| then [s] else [s[..k]] + Lines(s[k + 1..])
  }

  /** `ls` written out, every line ended by `\n`. */
  function Unlines(ls: seq<string>): string {
    if ls == [] then [] else ls[0] + "\n" + Unlines(ls[1..])
  }

  /** Two blocks of lines written one after the other are one block. */
  lemma {:induction false} UnlinesAppend(a: seq<string>, b: seq<string>)
    ensures Unlines(a) + Unlines(b) == Unlines(a + b)
    decreases |a|
  {
    if a == [] {
      assert a + b == b;
    } else {
      UnlinesAppend(a[1..], b);
      assert Unlines(a + b) == a[0] + "\n" + Unlines(a[1..] + b) by {
        assert (a + b)[1..] == a[1..] + b;
        assert (a + b)[0] == a[0];
      }
      ConcatAssoc(a[0] + "\n", Unlines(a[1..]), Unlines(b));
    }
  }

  lemma ConcatAssoc<T>(x: seq<T>, y: seq<T>, z: seq<T>)
    ensures (x + y) + z == x + (y + z)
  {
  }

  /** No line holds a line break of its own. */
  predicate NoBreaks(ls: seq<string>) { forall i :: 0 <= i < |ls| ==> '\n' !in ls[i] }

  lemma NoBreaksAppend(a: seq<string>, b: seq<string>)
    requires NoBreaks(a) && NoBreaks(b)
    ensures NoBreaks(a + b)
  {
    forall i | 0 <= i < |a + b|
      ensures '\n' !in (a + b)[i]
    {
      if i >= |a| {
        assert (a + b)[i] == b[i - |a|];
      }
    }
  }

  /** Reading back lines that hold no `\n` gives exactly those lines. */
  lemma {:induction false} LinesUnlines(ls: seq<string>)
    requires NoBreaks(ls)
    ensures Lines(Unlines(ls)) == ls
    decreases |ls|
  {
    if ls != [] {
      var s := Unlines(ls);
      var head := ls[0];
      assert s == head + ("\n" + Unlines(ls[1..]));
      assert FirstOf(s, '\n', '\n') == |head| by {
        FirstAfter(head, "\n" + Unlines(ls[1..]), '\n');
      }
      assert s[..|head|] == head;
      assert s[|head| + 1..] == Unlines(ls[1..]);
      LinesUnlines(ls[1..]);
    }
  }

  /** A prefix free of `c` is passed over by the search for `c`. */
  lemma {:induction false} FirstAfter(a: string, b: string, c: char)
    requires c !in a && b != [] && b[0] == c
    ensures FirstOf(a + b, c, c) == |a|
    decreases |a|
  {
    if a != [] {
      assert (a + b)[1..] == a[1..] + b;
      FirstAfter(a[1..], b, c);
    }
  }

  // ------------------------------------------------------------ bytes repr

  const HexDigits: string := "0123456789abcdef"

  /** How `repr` of a bytes object writes one byte inside quotes `q`. */
  function EscapeByte(c: char, q: char): string {
    if c == q || c == '\\' then ['\\', c]
    else if c == '\t' then "\\t"
    else if c == '\n' then "\\n"
    else if c == '\r' then "\\r"
    else if c < ' ' || c as int >= 127 then
      var b := c as int % 256;
      "\\x" + [HexDigits[b / 16], HexDigits[b % 16]]
    else [c]
  }

  function Escape(s: string, q: char): string {
    if s == [] then [] else EscapeByte(s[0], q) + Escape(s[1..], q)
  }

  /** `repr(b)` of the bytes `s` (one char per byte): single quotes unless
    * the bytes hold a single quote and no double quote. */
  function BytesRepr(s: string): string {
    var q := if '\'' in s && '"' !in s then '"' else '\'';
    "b" + [q] + Escape(s, q) + [q]
  }

  /** How `repr` of a str writes one character inside quotes `q`: as a byte
    * is written, except that printable characters past ASCII are kept and
    * the white space past Latin-1 is written `\uXXXX`. */
  function EscapeChar(c: char, q: char): string {
    if c == q || c == '\\' then ['\\', c]
    else if c == '\t' then "\\t"
    else if c == '\n' then "\\n"
    else if c == '\r' then "\\r"
    else if c < ' ' || 127 <= c as int <= 160 || c as int == 173 then
      var b := c as int;
      "\\x" + [HexDigits[b / 16], HexDigits[b % 16]]
    else if IsSpace(c) && c as int > 255 then
      var u := c as int;
      "\\u" + [HexDigits[u / 4096], HexDigits[u / 256 % 16], HexDigits[u / 16 % 16], HexDigits[u % 16]]
    else [c]
  }

  function EscapeText(s: string, q: char): string {
    if s == [] then [] else EscapeChar(s[0], q) + EscapeText(s[1..], q)
  }

  /** `repr(s)` of the str `s`: single quotes unless it holds a single quote
    * and no double quote. */
  function StrRepr(s: string): string {
    var q := if '\'' in s && '"' !in s then '"' else '\'';
    [q] + EscapeText(s, q) + [q]
  }

  /** Printable ASCII other than quotes and backslashes is written as is. */
  predicate Plain(c: char) {
    ' ' <= c && c as int < 127 && c != '\'' && c != '"' && c != '\\'
  }

  lemma {:induction false} EscapePlain(s: string, q: char)
    requires q == '\'' || q == '"'
    requires forall i :: 0 <= i < |s| ==> Plain(s[i])
    ensures EscapeText(s, q) == s
    decreases |s|
  {
    if s != [] {
      EscapePlain(s[1..], q);
      assert !IsSpace(s[0]) || s[0] as int <= 255;
      assert EscapeChar(s[0], q) == [s[0]];
      assert s == [s[0]] + s[1..];
    }
  }

  /** A token of plain characters is only quoted: `repr('abc')` is `'abc'`. */
  lemma StrReprPlain(s: string)
    requires forall i :: 0 <= i < |s| ==> Plain(s[i])
    ensures StrRepr(s) == "'" + s + "'"
  {
    assert forall i :: 0 <= i < |s| ==> s[i] != '\'';
    EscapePlain(s, '\'');
  }

  /** The escaped text of bytes never breaks a line. */
  lemma {:induction false} EscapeOneLine(s: string, q: char)
    requires q != '\n'
    ensures '\n' !in Escape(s, q)
    decreases |s|
  {
    if s != [] {
      EscapeOneLine(s[1..], q);
      EscapeByteOneLine(s[0], q);
    }
  }

  /** One escaped byte never breaks a line. */
  lemma EscapeByteOneLine(c: char, q: char)
    requires q != '\n'
    ensures '\n' !in EscapeByte(c, q)
  {
    if !(c == q || c == '\\' || c == '\t' || c == '\n' || c == '\r') && (c < ' ' || c as int >= 127) {
      var b := c as int % 256;
      assert HexDigits[b / 16] != '\n' && HexDigits[b % 16] != '\n';
    }
  }

  /** `repr` of bytes is one line, whatever the bytes: a newline byte is
    * written as the two characters `\n`. */
  lemma BytesReprOneLine(s: string)
    ensures '\n' !in BytesRepr(s)
    ensures BytesRepr(s)[0] == 'b'
  {
    var q := if '\'' in s && '"' !in s then '"' else '\'';
    EscapeOneLine(s, q);
  }
}
